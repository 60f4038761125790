/**
 * The per-user todo and reminder lists kept under
 * "taskflow:<identity>:todos" and "taskflow:<identity>:reminders", where the
 * identity is the user's e-mail, else id, else user name, else "guest".
 */
module UserStorage {
  import opened Identity
  import opened Json

  const AppKey: string := "taskflow"
  const TodosSuffix: string := ":todos"
  const RemindersSuffix: string := ":reminders"

  /** `getUserKey`: "taskflow:" and the first identifying field set, in the order e-mail, id, user name. */
  function UserKey(u: Who): (k: string)
    ensures u.email != "" ==> k == "taskflow:" + u.email
    ensures u.email == "" && u.id != "" ==> k == "taskflow:" + u.id
    ensures u.email == "" && u.id == "" && u.username != "" ==> k == "taskflow:" + u.username
    ensures u.email == "" && u.id == "" && u.username == "" ==> k == "taskflow:guest"
  {
    var cands := [u.email, u.id, u.username];
    assert cands[0] == u.email && cands[1] == u.id && cands[2] == u.username;
    AppKey + ":" + FirstNonEmpty(cands, "guest")
  }

  function TodosKey(u: Who): string { UserKey(u) + TodosSuffix }

  function RemindersKey(u: Who): string { UserKey(u) + RemindersSuffix }

  /** A todo key and a reminder key never coincide, whichever users they belong to. */
  lemma TodoAndReminderKeysDiffer(u: Who, v: Who)
    ensures TodosKey(u) != RemindersKey(v)
  {
    var a, b := TodosKey(u), RemindersKey(v);
    assert a[|a| - 2] == 'o';
    assert b[|b| - 2] == 'r';
  }

  /** `loadTodos`: the stored value, or `[]` when it is absent, unreadable or `null`. */
  function LoadTodos(st: Storage, u: Who): (r: Json)
    ensures TodosKey(u) !in st || !st[TodosKey(u)].Doc? || st[TodosKey(u)].v == JNull ==> r == JArr([])
    ensures TodosKey(u) in st && st[TodosKey(u)].Doc? && st[TodosKey(u)].v != JNull ==> r == st[TodosKey(u)].v
  {
    SafeParse(st, TodosKey(u), JArr([]))
  }

  /** `saveTodos`. */
  function SaveTodos(st: Storage, u: Who, todos: Json): (r: Storage)
    ensures r.Keys == st.Keys + {TodosKey(u)}
  {
    SetItem(st, TodosKey(u), todos)
  }

  /** `loadReminders`. */
  function LoadReminders(st: Storage, u: Who): (r: Json)
    ensures RemindersKey(u) !in st || !st[RemindersKey(u)].Doc? || st[RemindersKey(u)].v == JNull ==> r == JArr([])
    ensures RemindersKey(u) in st && st[RemindersKey(u)].Doc? && st[RemindersKey(u)].v != JNull ==> r == st[RemindersKey(u)].v
  {
    SafeParse(st, RemindersKey(u), JArr([]))
  }

  /** `saveReminders`. */
  function SaveReminders(st: Storage, u: Who, reminders: Json): (r: Storage)
    ensures r.Keys == st.Keys + {RemindersKey(u)}
  {
    SetItem(st, RemindersKey(u), reminders)
  }

  /** Each save writes the key its load reads: loading after saving gives the saved list back. */
  lemma LoadAfterSave(st: Storage, u: Who, todos: Json, reminders: Json)
    requires todos != JNull && reminders != JNull
    ensures LoadTodos(SaveTodos(st, u, todos), u) == todos
    ensures LoadReminders(SaveReminders(st, u, reminders), u) == reminders
  {
    SafeParseOfSet(st, TodosKey(u), todos, JArr([]));
    SafeParseOfSet(st, RemindersKey(u), reminders, JArr([]));
  }

  /** Saving one list never changes what the other list loads as, for any user. */
  lemma SavesAreIndependent(st: Storage, u: Who, v: Who, list: Json)
    ensures LoadReminders(SaveTodos(st, u, list), v) == LoadReminders(st, v)
    ensures LoadTodos(SaveReminders(st, u, list), v) == LoadTodos(st, v)
  {
    TodoAndReminderKeysDiffer(u, v);
    TodoAndReminderKeysDiffer(v, u);
  }
}
