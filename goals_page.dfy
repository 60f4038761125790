/**
 * The goal form: title, description, target value and unit, category and
 * target date. Creating a goal validates the title, normalises the fields
 * and hands the record to the goal list.
 */
module GoalsPage {
  import opened Wrappers
  import opened Strings
  import opened Dates
  import opened Json
  import opened GoalsContext

  const DefaultUnit: string := "tasks"
  const DefaultCategory: string := "Productivity"

  /** `Number(targetValue) || 0`: a number that does not parse, and zero, give 0. */
  function TargetNumber(s: string): (n: nat)
    ensures ParseNumber(s).None? ==> n == 0
    ensures ParseNumber(s).Some? ==> n == ParseNumber(s).value
  {
    ParseNumber(s).GetOr(0)
  }

  /** `unit.trim() || "tasks"`. */
  function UnitOrDefault(unit: string): (u: string)
    ensures u != []
    ensures IsBlank(unit) ==> u == DefaultUnit
    ensures !IsBlank(unit) ==> u == Trim(unit)
  {
    if IsBlank(unit) then DefaultUnit else Trim(unit)
  }

  /** A goal record with the six fields the form fills in, in the form's order. */
  function GoalRecord(title: Json, desc: Json, target: Json, unit: Json, category: Json, date: Json)
    : (r: seq<(string, Json)>)
    ensures Lookup(r, "title") == Some(title) && Lookup(r, "desc") == Some(desc)
    ensures Lookup(r, "targetValue") == Some(target) && Lookup(r, "unit") == Some(unit)
    ensures Lookup(r, "category") == Some(category) && Lookup(r, "targetDate") == Some(date)
    ensures UniqueKeys(r) && Lookup(r, "id").None? && Lookup(r, "createdAt").None?
  {
    var r := [("title", title), ("desc", desc), ("targetValue", target),
              ("unit", unit), ("category", category), ("targetDate", date)];
    assert UniqueKeys(r) by { KeysByShape(r); }
    assert Lookup(r, "id").None? && Lookup(r, "createdAt").None?;
    assert Lookup(r, "title") == Some(title) && Lookup(r, "desc") == Some(desc)
      && Lookup(r, "targetValue") == Some(target) && Lookup(r, "unit") == Some(unit)
      && Lookup(r, "category") == Some(category) && Lookup(r, "targetDate") == Some(date) by {
      LookupUnique(r);
      assert r[0].0 == "title" && r[1].0 == "desc" && r[2].0 == "targetValue";
      assert r[3].0 == "unit" && r[4].0 == "category" && r[5].0 == "targetDate";
    }
    r
  }

  /** What the form holds: the text of each input. */
  datatype Draft = Draft(title: string, desc: string, targetValue: string, unit: string, category: string,
                         targetDate: string)

  /** The record `onCreate` passes to `addGoal`. */
  function GoalFields(d: Draft): seq<(string, Json)>
  {
    GoalRecord(JStr(Trim(d.title)), JStr(Trim(d.desc)), JNum(TargetNumber(d.targetValue)),
               JStr(UnitOrDefault(d.unit)), JStr(d.category), JStr(d.targetDate))
  }

  /** The goal `onCreate` builds holds the trimmed title and description, the target as a number and the unit or its default. */
  lemma GoalFieldsRead(d: Draft)
    ensures var r := GoalFields(d);
      && Lookup(r, "title") == Some(JStr(Trim(d.title)))
      && Lookup(r, "desc") == Some(JStr(Trim(d.desc)))
      && Lookup(r, "targetValue") == Some(JNum(TargetNumber(d.targetValue)))
      && Lookup(r, "unit") == Some(JStr(UnitOrDefault(d.unit)))
      && Lookup(r, "category") == Some(JStr(d.category))
      && Lookup(r, "targetDate") == Some(JStr(d.targetDate))
      && UniqueKeys(r) && Lookup(r, "id").None? && Lookup(r, "createdAt").None?
  {
  }

  /** Stamping a record with unique keys keeps its title, unit and target and adds the id. */
  lemma StampKeepsGoal(f: seq<(string, Json)>, title: Json, unit: Json, target: Json, id: string, createdAt: string)
    requires UniqueKeys(f)
    requires Lookup(f, "title") == Some(title) && Lookup(f, "unit") == Some(unit)
    requires Lookup(f, "targetValue") == Some(target)
    ensures var g := Stamped(f, id, createdAt);
      && Lookup(g, "title") == Some(title) && Lookup(g, "unit") == Some(unit)
      && Lookup(g, "targetValue") == Some(target) && Lookup(g, "id") == Some(JStr(id))
      && UniqueKeys(g)
  {
    assert "title"[0] != "id"[0] && "title"[0] != "createdAt"[0];
    assert "unit"[0] != "id"[0] && "unit"[0] != "createdAt"[0];
    assert "targetValue"[0] != "id"[0] && "targetValue"[0] != "createdAt"[0];
  }

  /** A goal as stored: the form's fields survive the id and timestamp the list adds. */
  lemma StoredGoal(d: Draft, id: string, createdAt: string)
    ensures var g := Stamped(GoalFields(d), id, createdAt);
      && Lookup(g, "title") == Some(JStr(Trim(d.title)))
      && Lookup(g, "unit") == Some(JStr(UnitOrDefault(d.unit)))
      && Lookup(g, "targetValue") == Some(JNum(TargetNumber(d.targetValue)))
      && Lookup(g, "id") == Some(JStr(id))
      && UniqueKeys(g)
  {
    GoalFieldsRead(d);
    StampKeepsGoal(GoalFields(d), JStr(Trim(d.title)), JStr(UnitOrDefault(d.unit)),
                   JNum(TargetNumber(d.targetValue)), id, createdAt);
  }

  class GoalForm {
    var draft: Draft
    const list: GoalList

    /** The form starts empty with 10 tasks, "Productivity", and a target date 30 days after `today`. */
    constructor(list: GoalList, today: Date)
      requires Valid(today)
      ensures this.list == list
      ensures draft == Draft("", "", "10", DefaultUnit, DefaultCategory, FormatIso(AddDays(today, 30)))
    {
      this.list := list;
      draft := Draft("", "", "10", DefaultUnit, DefaultCategory, FormatIso(AddDays(today, 30)));
    }

    /**
     * `onCreate`: a blank title changes nothing; otherwise the normalised goal
     * is added in front and only the title and description are cleared.
     */
    method OnCreate(id: string, createdAt: string)
      modifies this, list
      ensures IsBlank(old(draft.title)) ==> list.goals == old(list.goals) && draft == old(draft)
      ensures !IsBlank(old(draft.title)) ==>
        && list.goals == [JObj(Stamped(GoalFields(old(draft)), id, createdAt))] + old(list.goals)
        && draft == old(draft).(title := "", desc := "")
    {
      if IsBlank(draft.title) {
        return;
      }
      list.AddGoal(GoalFields(draft), id, createdAt);
      draft := draft.(title := "", desc := "");
    }
  }
}
