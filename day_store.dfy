/**
 * Per-day stores: a JSON object from "YYYY-MM-DD" to that day's list, as the
 * home page keeps its todos and reminders. A store written by older code
 * may instead hold one flat array, which every reader takes as today's list.
 */
module DayStore {
  import opened Wrappers
  import opened Json

  /** The fields of a per-day object, in insertion order. */
  type Days = seq<(string, Json)>

  /** `Array.isArray(store[day]) ? store[day] : []`. */
  function DayItems(days: Days, day: string): (r: seq<Json>)
    ensures Lookup(days, day).None? ==> r == []
  {
    AsArray(Lookup(days, day))
  }

  /**
   * Reading a stored per-day value: a legacy array becomes `{ [today]: array }`,
   * an object is the store itself, anything else an empty store.
   */
  function Migrate(raw: Json, today: string): (r: Days)
    ensures raw.JArr? ==> DayItems(r, today) == raw.items
    ensures raw.JArr? ==> forall d :: d != today ==> DayItems(r, d) == []
    ensures raw.JObj? ==> forall d :: DayItems(r, d) == AsArray(Get(raw, d))
    ensures !raw.JArr? && !raw.JObj? ==> forall d :: DayItems(r, d) == []
  {
    match raw
    case JArr(_) => [(today, raw)]
    case JObj(fields) => fields
    case _ => []
  }

  /** `store[day] = [item, ...dayList]`: the day's list gains `item` in front, every other day is kept. */
  function Prepend(days: Days, day: string, item: Json): (r: Days)
    ensures DayItems(r, day) == [item] + DayItems(days, day)
    ensures forall d :: d != day ==> DayItems(r, d) == DayItems(days, d)
    ensures UniqueKeys(days) ==> UniqueKeys(r)
  {
    Put(days, day, JArr([item] + DayItems(days, day)))
  }

  /** `store[day] = items`: the day's list replaced, every other day kept. */
  function SetDay(days: Days, day: string, items: seq<Json>): (r: Days)
    ensures DayItems(r, day) == items
    ensures forall d :: d != day ==> DayItems(r, d) == DayItems(days, d)
    ensures UniqueKeys(days) ==> UniqueKeys(r)
  {
    Put(days, day, JArr(items))
  }

  /** Reading back a day just written gives the list written, whatever the store held before. */
  lemma SetDayThenRead(raw: Json, today: string, items: seq<Json>)
    ensures DayItems(Migrate(JObj(SetDay(Migrate(raw, today), today, items)), today), today) == items
  {
  }
}
