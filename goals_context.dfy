/** The goal list, kept newest first under "taskflow_goals_v1". */
module GoalsContext {
  import opened Wrappers
  import opened Json
  import opened Lists

  const GoalsKey: string := "taskflow_goals_v1"

  /** What the list reads as after it has been saved: the same goals. */
  lemma ReloadAfterSave(st: Storage, goals: seq<Json>)
    ensures StoredList(SetItem(st, GoalsKey, JArr(goals)), GoalsKey) == goals
  {
    SafeParseOfSet(st, GoalsKey, JArr(goals), JArr([]));
  }

  class GoalList {
    var goals: seq<Json>

    /** Loading: a malformed or absent store is the empty list. */
    constructor(st: Storage)
      ensures goals == StoredList(st, GoalsKey)
      ensures GoalsKey !in st || !st[GoalsKey].Doc? ==> goals == []
    {
      goals := StoredList(st, GoalsKey);
    }

    /** The save effect: the list written under its key. */
    function Saved(st: Storage): (r: Storage)
      reads this
      ensures StoredList(r, GoalsKey) == goals
    {
      ReloadAfterSave(st, goals);
      SetItem(st, GoalsKey, JArr(goals))
    }

    /** `addGoal`: one goal more, in front, with the caller's fields and a fresh id and creation time. */
    method AddGoal(goal: seq<(string, Json)>, id: string, createdAt: string)
      modifies this
      ensures goals == [JObj(Stamped(goal, id, createdAt))] + old(goals)
    {
      goals := [JObj(Stamped(goal, id, createdAt))] + goals;
    }

    /** `removeGoal`: every goal with that id goes, the rest keep their order. */
    method RemoveGoal(id: string)
      modifies this
      ensures goals == WithoutId(old(goals), Some(JStr(id)), RecordId)
    {
      goals := WithoutId(goals, Some(JStr(id)), RecordId);
    }
  }
}
