/**
 * The app-wide todo and reminder lists, loaded from and saved to the
 * per-user keys of `UserStorage` for the fixed demo user "ar". Todos have
 * the shape of `TodosContext`; reminders carry a date, a title, a time and
 * notes.
 */
module AppDataContext {
  import opened Wrappers
  import opened Strings
  import opened Lists
  import opened Identity
  import opened TodosContext
  import UserStorage

  /** The user the provider is wired to. */
  const DemoUser: Who := Who("", "ar", "", "")

  const DefaultTime: string := "09:00"

  datatype Reminder = Reminder(id: string, date: string, title: string, time: string, notes: string,
                               done: bool, createdAt: string)

  function ReminderId(r: Reminder): string { r.id }

  /** `{ ...r, done: !r.done }`. */
  function ToggleReminder(r: Reminder): (x: Reminder)
    ensures x.id == r.id && x.done == !r.done && x.(done := r.done) == r
  {
    r.(done := !r.done)
  }

  /** `(time || "09:00").trim()`: an empty time is the default, any other is trimmed (so all blanks give ""). */
  function TimeOrDefault(time: string): (t: string)
    ensures time == "" ==> t == DefaultTime
    ensures time != "" ==> t == Trim(time)
  {
    Trim(if time == "" then DefaultTime else time)
  }

  /**
   * `addReminder`: nothing without a date or with a blank title; otherwise
   * an open reminder with the trimmed title and notes goes in front.
   */
  function AddedReminder(reminders: seq<Reminder>, date: string, title: string, time: string, notes: string,
                         id: string, createdAt: string): (r: seq<Reminder>)
    ensures date == "" || IsBlank(title) ==> r == reminders
    ensures date != "" && !IsBlank(title) ==> |r| == |reminders| + 1 && r[1..] == reminders
    ensures date != "" && !IsBlank(title) ==>
      r[0] == Reminder(id, date, Trim(title), TimeOrDefault(time), Trim(notes), false, createdAt)
    ensures date != "" && !IsBlank(title) ==> r[0].title != [] && r[0].time == (if time == "" then "09:00" else Trim(time))
  {
    if date == "" || IsBlank(title) then reminders
    else [Reminder(id, date, Trim(title), TimeOrDefault(time), Trim(notes), false, createdAt)] + reminders
  }

  /** A time made only of blanks is not replaced by the default: it is stored as "". */
  lemma BlankTimeStaysEmpty(time: string)
    requires time != "" && IsBlank(time)
    ensures TimeOrDefault(time) == ""
  {
  }

  function ToggledReminders(reminders: seq<Reminder>, id: string): (r: seq<Reminder>)
    ensures |r| == |reminders|
    ensures forall k :: 0 <= k < |r| ==> r[k].id == reminders[k].id
    ensures forall k :: 0 <= k < |r| ==> r[k].done == (if reminders[k].id == id then !reminders[k].done else reminders[k].done)
    ensures forall k :: 0 <= k < |r| ==> r[k].(done := reminders[k].done) == reminders[k]
  {
    UpdateId(reminders, id, ReminderId, ToggleReminder)
  }

  function DeletedReminders(reminders: seq<Reminder>, id: string): (r: seq<Reminder>)
    ensures forall k :: 0 <= k < |r| ==> r[k].id != id && r[k] in reminders
    ensures forall k :: 0 <= k < |reminders| && reminders[k].id != id ==> reminders[k] in r
  {
    WithoutId(reminders, id, ReminderId)
  }

  lemma ToggleReminderTwice(reminders: seq<Reminder>, id: string)
    ensures ToggledReminders(ToggledReminders(reminders, id), id) == reminders
  {
    UpdateIdTwice(reminders, id, ReminderId, ToggleReminder);
  }

  /** The keys the two lists are saved under for the demo user. */
  function StorageKeys(): (k: (string, string))
    ensures k == ("taskflow:ar:todos", "taskflow:ar:reminders")
  {
    var user := UserStorage.UserKey(DemoUser);
    assert user == "taskflow:" + "ar";
    assert user + ":todos" == "taskflow:ar:todos";
    assert user + ":reminders" == "taskflow:ar:reminders";
    (UserStorage.TodosKey(DemoUser), UserStorage.RemindersKey(DemoUser))
  }

  class AppData {
    var todos: seq<Todo>
    var reminders: seq<Reminder>

    /** Loading both lists; a list whose key is absent, unreadable or `null` (`None`) starts empty. */
    constructor(savedTodos: Option<seq<Todo>>, savedReminders: Option<seq<Reminder>>)
      ensures todos == savedTodos.GetOr([]) && reminders == savedReminders.GetOr([])
    {
      todos := savedTodos.GetOr([]);
      reminders := savedReminders.GetOr([]);
    }

    method AddTodo(text: string, id: string, createdAt: string)
      modifies this
      ensures todos == Added(old(todos), text, id, createdAt) && reminders == old(reminders)
    {
      todos := Added(todos, text, id, createdAt);
    }

    method ToggleTodo(id: string)
      modifies this
      ensures todos == Toggled(old(todos), id) && reminders == old(reminders)
    {
      todos := Toggled(todos, id);
    }

    method DeleteTodo(id: string)
      modifies this
      ensures todos == Deleted(old(todos), id) && reminders == old(reminders)
    {
      todos := Deleted(todos, id);
    }

    method AddReminder(date: string, title: string, time: string, notes: string, id: string, createdAt: string)
      modifies this
      ensures reminders == AddedReminder(old(reminders), date, title, time, notes, id, createdAt)
      ensures todos == old(todos)
    {
      reminders := AddedReminder(reminders, date, title, time, notes, id, createdAt);
    }

    method ToggleReminder(id: string)
      modifies this
      ensures reminders == ToggledReminders(old(reminders), id) && todos == old(todos)
    {
      reminders := ToggledReminders(reminders, id);
    }

    method DeleteReminder(id: string)
      modifies this
      ensures reminders == DeletedReminders(old(reminders), id) && todos == old(todos)
    {
      reminders := DeletedReminders(reminders, id);
    }
  }
}
