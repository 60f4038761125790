/**
 * The Pomodoro page: a 25-minute focus phase and a 5-minute break, a
 * count of finished focus phases kept under "taskflow_focus_stats_v1", and
 * a work-hours entry added to "taskflow_work_sessions_v1" for each one.
 */
module Focus {
  import opened Wrappers
  import opened Strings
  import opened Json

  const WorkKey: string := "taskflow_work_sessions_v1"
  const StatsKey: string := "taskflow_focus_stats_v1"
  const FocusMinutes: nat := 25
  const BreakMinutes: nat := 5

  datatype Mode = FocusPhase | BreakPhase

  /** The length of a phase in seconds. */
  function PhaseSeconds(m: Mode): (n: nat)
    ensures m.FocusPhase? ==> n == 1500
    ensures m.BreakPhase? ==> n == 300
  {
    if m.FocusPhase? then FocusMinutes * 60 else BreakMinutes * 60
  }

  // ---------------------------------------------------------------- the work entry

  /**
   * The entry `saveWork` adds. `hundredths` is `Number((minutes / 60).toFixed(2))`
   * written in hundredths of an hour.
   */
  datatype WorkEntry = WorkEntry(id: string, date: string, start: string, end: string, hundredths: nat,
                                 rate: int, earnings: int, notes: string, source: string, createdAt: int)

  /** One item of the stored work list: what was there before, or an entry added here. */
  datatype WorkItem = Stored(value: Json) | Added(entry: WorkEntry)

  /** `minutes / 60` to two decimals, in hundredths: the nearest whole number of hundredths. */
  function Hundredths(minutes: nat): (h: nat)
    ensures 60 * h <= 100 * minutes + 30 < 60 * h + 60
  {
    (100 * minutes + 30) / 60
  }

  /** No number of minutes falls half-way between two hundredths of an hour, so the rounding is never a tie. */
  lemma NeverHalfway(minutes: nat)
    ensures (100 * minutes) % 60 != 30
  {
  }

  /** The entry for a finished focus phase; `id`, `today` and `now` stand for the random id and the clock. */
  function FocusEntry(minutes: nat, id: string, today: string, now: int): (e: WorkEntry)
    ensures e.rate == 0 && e.earnings == 0 && e.source == "focus"
    ensures e.start == "Focus" && e.end == "Focus" && e.date == today
    ensures 60 * e.hundredths <= 100 * minutes + 30 < 60 * e.hundredths + 60
  {
    WorkEntry(id, today, "Focus", "Focus", Hundredths(minutes), 0, 0, "Pomodoro focus (" + NatToString(minutes) + "m)", "focus", now)
  }

  /** A full focus phase is 0.42 hours. */
  lemma FocusPhaseHours()
    ensures Hundredths(FocusMinutes) == 42
  {
  }

  // ---------------------------------------------------------------- the stats

  /** The two counters; `None` is `NaN`. */
  datatype Stats = Stats(totalSessions: Option<int>, totalFocusMinutes: Option<int>)

  /** `readStats`: the stored counters, each 0 when missing, empty or unreadable storage giving zeros. */
  function ReadStats(st: Storage): (s: Stats)
    ensures !Present(st, StatsKey) ==> s == Stats(Some(0), Some(0))
    ensures StatsKey in st && st[StatsKey].Doc? && !st[StatsKey].v.JObj? ==> s == Stats(Some(0), Some(0))
  {
    var stats := SafeParse(st, StatsKey, JObj([("totalSessions", JNum(0)), ("totalFocusMinutes", JNum(0))]));
    Stats(NumberOf(Get(stats, "totalSessions")), NumberOf(Get(stats, "totalFocusMinutes")))
  }

  /** `JSON.stringify` of a number: `NaN` is written as `null`. */
  function NumJson(n: Option<int>): Json
  {
    if n.Some? then JNum(n.value) else JNull
  }

  /** `writeStats`. */
  function WriteStats(st: Storage, s: Stats): (r: Storage)
  {
    SetItem(st, StatsKey, JObj([("totalSessions", NumJson(s.totalSessions)), ("totalFocusMinutes", NumJson(s.totalFocusMinutes))]))
  }

  /** What is written is what is read back; a `NaN` counter comes back as 0. */
  lemma WriteThenRead(st: Storage, s: Stats)
    ensures ReadStats(WriteStats(st, s)) ==
      Stats(if s.totalSessions.Some? then s.totalSessions else Some(0),
            if s.totalFocusMinutes.Some? then s.totalFocusMinutes else Some(0))
  {
    var fields := [("totalSessions", NumJson(s.totalSessions)), ("totalFocusMinutes", NumJson(s.totalFocusMinutes))];
    assert fields[0].0 != fields[1].0 by {
      assert fields[0].0[6] != fields[1].0[6];
    }
    LookupUnique(fields);
  }

  // ---------------------------------------------------------------- the timer

  /** The page's state, with the stats storage and the stored work list. */
  class Timer {
    var mode: Mode
    var seconds: int
    var running: bool
    var sessions: Option<int>
    var store: Storage
    var work: seq<WorkItem>

    /** The time left is within the phase and has not run out. */
    predicate Valid()
      reads this
    {
      0 < seconds <= PhaseSeconds(mode)
    }

    constructor(store: Storage, work: seq<WorkItem>)
      ensures mode == FocusPhase && seconds == 1500 && !running
      ensures sessions == ReadStats(store).totalSessions
      ensures this.store == store && this.work == work
      ensures Valid()
    {
      mode := FocusPhase;
      seconds := FocusMinutes * 60;
      running := false;
      sessions := ReadStats(store).totalSessions;
      this.store := store;
      this.work := work;
    }

    method Start()
      modifies this`running
      ensures running
    {
      running := true;
    }

    method Pause()
      modifies this`running
      ensures !running
    {
      running := false;
    }

    /** The Reset button: stopped, focus, 25 minutes. */
    method Reset()
      modifies this`running, this`mode, this`seconds
      ensures !running && mode == FocusPhase && seconds == 1500
      ensures Valid()
    {
      running := false;
      mode := FocusPhase;
      seconds := FocusMinutes * 60;
    }

    /**
     * The effect run when the time is up. After focus: one more session,
     * 25 more minutes stored, a work entry in front of the work list, and a
     * 5-minute break. After a break: a new 25-minute focus phase. Either
     * way the timer stops.
     */
    method PhaseEnd(id: string, today: string, now: int)
      requires seconds <= 0
      modifies this`mode, this`seconds, this`running, this`sessions, this`store, this`work
      ensures !running && Valid()
      ensures old(mode).FocusPhase? ==>
        && sessions == AddOpt(old(sessions), Some(1))
        && store == WriteStats(old(store), Stats(AddOpt(old(sessions), Some(1)),
                                                 AddOpt(ReadStats(old(store)).totalFocusMinutes, Some(FocusMinutes))))
        && work == [Added(FocusEntry(FocusMinutes, id, today, now))] + old(work)
        && mode == BreakPhase && seconds == 300
      ensures old(mode).BreakPhase? ==>
        && sessions == old(sessions) && store == old(store) && work == old(work)
        && mode == FocusPhase && seconds == 1500
    {
      if mode == FocusPhase {
        var next := AddOpt(sessions, Some(1));
        var prev := ReadStats(store);
        store := WriteStats(store, Stats(next, AddOpt(prev.totalFocusMinutes, Some(FocusMinutes))));
        sessions := next;
        work := [Added(FocusEntry(FocusMinutes, id, today, now))] + work;
        mode := BreakPhase;
        seconds := BreakMinutes * 60;
      } else {
        mode := FocusPhase;
        seconds := FocusMinutes * 60;
      }
      running := false;
    }

    /** One second of a running timer; when it reaches zero the phase ends. */
    method Tick(id: string, today: string, now: int)
      requires Valid() && running
      modifies this`mode, this`seconds, this`running, this`sessions, this`store, this`work
      ensures Valid()
      ensures old(seconds) > 1 ==> seconds == old(seconds) - 1 && running && mode == old(mode) && work == old(work)
      ensures old(seconds) == 1 ==> !running && mode != old(mode) && seconds == PhaseSeconds(mode)
    {
      seconds := seconds - 1;
      if seconds <= 0 {
        PhaseEnd(id, today, now);
      }
    }

    /** Another tab changed the stats: the count shown is read again. */
    method OnStorage(key: string)
      modifies this`sessions
      ensures key == StatsKey ==> sessions == ReadStats(store).totalSessions
      ensures key != StatsKey ==> sessions == old(sessions)
    {
      if key == StatsKey {
        sessions := ReadStats(store).totalSessions;
      }
    }
  }

  /** The clock shown: minutes and seconds, each at least two digits. */
  function ClockText(seconds: nat): (r: string)
    ensures seconds < 6000 ==> |r| == 5 && r[2] == ':'
  {
    Pad2(seconds / 60) + ":" + Pad2(seconds % 60)
  }

  /** The clock text gives back the time left. */
  lemma ClockRoundTrip(seconds: nat)
    requires seconds < 6000
    ensures var r := ClockText(seconds);
      ParseNumber(r[..2]) == Some(seconds / 60) && ParseNumber(r[3..]) == Some(seconds % 60)
      && 60 * (seconds / 60) + seconds % 60 == seconds
  {
    var r := ClockText(seconds);
    assert r[..2] == Pad2(seconds / 60);
    assert r[3..] == Pad2(seconds % 60);
    Pad2RoundTrip(seconds / 60);
    Pad2RoundTrip(seconds % 60);
  }
}
