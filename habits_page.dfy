/**
 * The habits page: the daily quote, the statistics cards (habits, done today,
 * best streak and the habit holding it) and the "new habit" form.
 */
module HabitsPage {
  import opened Strings
  import opened Lists
  import opened Dates
  import opened HabitsContext

  const Quotes: seq<string> := [
    "Small habits. Big results.",
    "Don\U{2019}t break the chain.",
    "Consistency beats intensity.",
    "Your future is built daily.",
    "Progress is a daily decision."
  ]

  /** `pickQuote(seed)`: the quote at `seed` modulo the number of quotes. */
  function PickQuote(seed: nat): (q: string)
    ensures q in Quotes
  {
    Quotes[seed % |Quotes|]
  }

  /** The quote repeats every five seeds and the first five seeds give the five quotes in order. */
  lemma PickQuoteCycles(seed: nat)
    ensures PickQuote(seed + |Quotes|) == PickQuote(seed)
    ensures seed < |Quotes| ==> PickQuote(seed) == Quotes[seed]
  {
  }

  /** The daily seed `year * 10000 + month * 100 + day`. */
  function DailySeed(d: Date): int
  {
    d.year * 10000 + d.month * 100 + d.day
  }

  /** The daily seed tells days apart: two different days of the common era never share a quote seed. */
  lemma DailySeedInjective(a: Date, b: Date)
    requires Valid(a) && Valid(b) && a.year >= 0 && b.year >= 0 && DailySeed(a) == DailySeed(b)
    ensures a == b
  {
    var ra, rb := a.month * 100 + a.day, b.month * 100 + b.day;
    DivExact(DailySeed(a), 10000, a.year, ra);
    DivExact(DailySeed(b), 10000, b.year, rb);
    DivExact(ra, 100, a.month, a.day);
    DivExact(rb, 100, b.month, b.day);
  }

  /** Whether the habit was done on that day: `(h.completions || []).includes(day)`. */
  function DoneOn(day: string): Habit -> bool
  {
    (h: Habit) => day in h.completions
  }

  /** The statistics cards. */
  datatype Stats = Stats(total: nat, doneToday: nat, best: nat, bestTitle: string)

  /** The streak of every habit before index `i` is at most `b`. */
  ghost predicate AtMost(hs: seq<Habit>, today: Date, i: nat, b: nat)
    requires Valid(today) && i <= |hs|
  {
    forall j, n: nat :: 0 <= j < i && IsStreak(hs[j].completions, today, n) ==> n <= b
  }

  /** `t` is the title of the first habit before index `i` whose streak is `b`, every earlier habit's streak being lower. */
  ghost predicate FirstReaching(hs: seq<Habit>, today: Date, i: nat, b: nat, t: string)
    requires Valid(today) && i <= |hs|
  {
    exists j :: 0 <= j < i && IsStreak(hs[j].completions, today, b) && hs[j].title == t
      && forall k, n: nat :: 0 <= k < j && IsStreak(hs[k].completions, today, n) ==> n < b
  }

  /**
   * `stats`: the number of habits, those done today, the best streak and the
   * title of the first habit reaching it (the comparison is strict, so a
   * later habit with the same streak does not take the title), or "" when
   * every streak is 0.
   */
  method ComputeStats(habits: seq<Habit>, today: Date) returns (s: Stats)
    requires Valid(today)
    ensures s.total == |habits|
    ensures s.doneToday == |Filter(habits, DoneOn(FormatIso(today)))| && s.doneToday <= s.total
    ensures AtMost(habits, today, |habits|, s.best)
    ensures s.best == 0 ==> s.bestTitle == ""
    ensures s.best > 0 ==> FirstReaching(habits, today, |habits|, s.best, s.bestTitle)
  {
    var best := 0;
    var bestTitle := "";
    var i := 0;
    while i < |habits|
      invariant i <= |habits|
      invariant AtMost(habits, today, i, best)
      invariant best == 0 ==> bestTitle == ""
      invariant best > 0 ==> FirstReaching(habits, today, i, best, bestTitle)
    {
      var streak := ComputeStreak(habits[i].completions, today);
      if streak > best {
        Raise(habits, today, i, best, streak);
        best := streak;
        bestTitle := habits[i].title;
      } else {
        Keep(habits, today, i, best, bestTitle, streak);
      }
      i := i + 1;
    }
    s := Stats(|habits|, Count(habits, DoneOn(FormatIso(today))), best, bestTitle);
  }

  /** A habit whose streak beats the best so far becomes the best. */
  lemma Raise(hs: seq<Habit>, today: Date, i: nat, best: nat, streak: nat)
    requires Valid(today) && i < |hs| && AtMost(hs, today, i, best)
    requires IsStreak(hs[i].completions, today, streak) && streak > best
    ensures AtMost(hs, today, i + 1, streak)
    ensures FirstReaching(hs, today, i + 1, streak, hs[i].title)
  {
    forall j, n: nat | 0 <= j < i + 1 && IsStreak(hs[j].completions, today, n) ensures n <= streak {
      if j == i {
        StreakUnique(hs[i].completions, today, n, streak);
      }
    }
    assert forall k, n: nat :: 0 <= k < i && IsStreak(hs[k].completions, today, n) ==> n < streak;
  }

  /** A habit whose streak does not beat the best so far leaves the best and its title as they are. */
  lemma Keep(hs: seq<Habit>, today: Date, i: nat, best: nat, title: string, streak: nat)
    requires Valid(today) && i < |hs| && AtMost(hs, today, i, best)
    requires best > 0 ==> FirstReaching(hs, today, i, best, title)
    requires IsStreak(hs[i].completions, today, streak) && streak <= best
    ensures AtMost(hs, today, i + 1, best)
    ensures best > 0 ==> FirstReaching(hs, today, i + 1, best, title)
  {
    forall j, n: nat | 0 <= j < i + 1 && IsStreak(hs[j].completions, today, n) ensures n <= best {
      if j == i {
        StreakUnique(hs[i].completions, today, n, streak);
      }
    }
  }

  /** The "new habit" form over the habits context. */
  class HabitForm {
    var title: string
    var open: bool
    const list: HabitList

    constructor(list: HabitList)
      ensures this.list == list && title == "" && !open
    {
      this.list := list;
      title := "";
      open := false;
    }

    /**
     * `onCreate`: a blank title changes nothing; otherwise the habit is added
     * under its trimmed title, the field is cleared and the form closes.
     */
    method OnCreate(id: string)
      modifies this, list
      ensures IsBlank(old(title)) ==> list.habits == old(list.habits) && title == old(title) && open == old(open)
      ensures !IsBlank(old(title)) ==>
        && list.habits == AddedHabit(old(list.habits), Trim(old(title)), id)
        && list.habits[0].title != [] && title == "" && !open
    {
      if IsBlank(title) {
        return;
      }
      list.AddHabit(Trim(title), id);
      title := "";
      open := false;
    }
  }
}
