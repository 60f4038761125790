/**
 * The home page: its own todo list `{id, text, date, done, createdAt}` kept
 * under "taskflow_tasks_v1", today's progress, and the quick reminder form
 * that writes through the reminders context.
 */
module HomePage {
  import opened Wrappers
  import opened Strings
  import opened Lists
  import RemindersContext

  const TasksKey: string := "taskflow_tasks_v1"

  datatype Todo = Todo(id: string, text: string, date: string, done: bool, createdAt: int)

  function TodoId(t: Todo): string { t.id }

  function IsDone(t: Todo): bool { t.done }

  /** `{ ...t, done: !t.done }`. */
  function Flip(t: Todo): (r: Todo)
    ensures r.done == !t.done && r.(done := t.done) == t
  {
    t.(done := !t.done)
  }

  function OnDay(day: string): Todo -> bool
  {
    (t: Todo) => t.date == day
  }

  /** `todaysTodos`: the todos dated today, in list order. */
  function TodaysTodos(todos: seq<Todo>, today: string): (r: seq<Todo>)
    ensures forall t :: t in r <==> t in todos && t.date == today
    ensures |r| <= |todos|
  {
    Filter(todos, OnDay(today))
  }

  /** `addTodo`: nothing for blank text, else an undone todo dated today with the trimmed text in front. */
  function Added(todos: seq<Todo>, text: string, today: string, id: string, createdAt: int): (r: seq<Todo>)
    ensures IsBlank(text) ==> r == todos
    ensures !IsBlank(text) ==> |r| == |todos| + 1 && r[1..] == todos
    ensures !IsBlank(text) ==>
      r[0] == Todo(id, Trim(text), today, false, createdAt) && r[0].text != []
  {
    if IsBlank(text) then todos else [Todo(id, Trim(text), today, false, createdAt)] + todos
  }

  /** `toggleTodo`: `done` flipped on the todos with that id, all else kept. */
  function Toggled(todos: seq<Todo>, id: string): (r: seq<Todo>)
    ensures |r| == |todos|
    ensures forall k :: 0 <= k < |todos| ==>
      r[k].done == (if todos[k].id == id then !todos[k].done else todos[k].done)
      && r[k].(done := todos[k].done) == todos[k]
  {
    UpdateId(todos, id, TodoId, Flip)
  }

  /** `removeTodo`. */
  function Removed(todos: seq<Todo>, id: string): (r: seq<Todo>)
    ensures forall k :: 0 <= k < |r| ==> r[k].id != id && r[k] in todos
    ensures forall k :: 0 <= k < |todos| && todos[k].id != id ==> todos[k] in r
  {
    WithoutId(todos, id, TodoId)
  }

  lemma ToggleTwice(todos: seq<Todo>, id: string)
    ensures Toggled(Toggled(todos, id), id) == todos
  {
    UpdateIdTwice(todos, id, TodoId, Flip);
  }

  /** Removing a todo just added under a fresh id restores the list. */
  lemma RemoveUndoesAdd(todos: seq<Todo>, text: string, today: string, id: string, createdAt: int)
    requires forall k :: 0 <= k < |todos| ==> todos[k].id != id
    ensures Removed(Added(todos, text, today, id, createdAt), id) == todos
  {
    if !IsBlank(text) {
      WithoutFreshHead(Todo(id, Trim(text), today, false, createdAt), todos, TodoId);
    } else {
      assert WithoutId(todos, id, TodoId) == todos;
    }
  }

  /** An added todo is one of today's: today's list gains exactly the new todo, in front. */
  lemma AddedIsToday(todos: seq<Todo>, text: string, today: string, id: string, createdAt: int)
    requires !IsBlank(text)
    ensures TodaysTodos(Added(todos, text, today, id, createdAt), today)
      == [Todo(id, Trim(text), today, false, createdAt)] + TodaysTodos(todos, today)
  {
    var x := Todo(id, Trim(text), today, false, createdAt);
    FilterAppend([x], todos, OnDay(today));
  }

  /** The progress card: today's todo count, how many are done, and the rounded percentage. */
  datatype Progress = Progress(total: nat, done: nat, percent: nat)

  function TodayProgress(todos: seq<Todo>, today: string): (p: Progress)
    ensures p.total == |TodaysTodos(todos, today)| && p.done <= p.total
    ensures p.done == |Filter(TodaysTodos(todos, today), IsDone)|
    ensures RoundedPercent(p.percent, p.done, p.total)
    ensures p.percent <= 100 && (p.total == 0 ==> p.percent == 0)
    ensures p.total > 0 && p.done == p.total ==> p.percent == 100
  {
    var day := TodaysTodos(todos, today);
    var done := Count(day, IsDone);
    Progress(|day|, done, Percent(done, |day|))
  }

  /** The home page's state: its todo list and two forms, over the reminders context. */
  class Home {
    var todos: seq<Todo>
    var todoText: string
    var showTodoForm: bool
    var remText: string
    var remType: string
    var showRemForm: bool
    const reminders: RemindersContext.ReminderList

    /** Loading: the stored todos, or `[]` when the key is absent, null or unreadable (`saved` is `None`). */
    constructor(saved: Option<seq<Todo>>, reminders: RemindersContext.ReminderList)
      ensures todos == saved.GetOr([]) && this.reminders == reminders
      ensures todoText == "" && !showTodoForm && remText == "" && !showRemForm
      ensures remType == RemindersContext.DefaultType
    {
      todos := saved.GetOr([]);
      this.reminders := reminders;
      todoText, showTodoForm := "", false;
      remText, remType, showRemForm := "", RemindersContext.DefaultType, false;
    }

    /** `addTodo`: blank text changes nothing; otherwise the todo is added, the field cleared and the form closed. */
    method AddTodo(today: string, id: string, createdAt: int)
      modifies this
      ensures IsBlank(old(todoText)) ==> todos == old(todos) && todoText == old(todoText) && showTodoForm == old(showTodoForm)
      ensures !IsBlank(old(todoText)) ==>
        todos == Added(old(todos), old(todoText), today, id, createdAt) && todoText == "" && !showTodoForm
      ensures remText == old(remText) && remType == old(remType) && showRemForm == old(showRemForm)
    {
      if IsBlank(todoText) {
        return;
      }
      todos := Added(todos, todoText, today, id, createdAt);
      todoText := "";
      showTodoForm := false;
    }

    method ToggleTodo(id: string)
      modifies this
      ensures todos == Toggled(old(todos), id)
      ensures todoText == old(todoText) && showTodoForm == old(showTodoForm)
      ensures remText == old(remText) && remType == old(remType) && showRemForm == old(showRemForm)
    {
      todos := Toggled(todos, id);
    }

    method RemoveTodo(id: string)
      modifies this
      ensures todos == Removed(old(todos), id)
      ensures todoText == old(todoText) && showTodoForm == old(showTodoForm)
      ensures remText == old(remText) && remType == old(remType) && showRemForm == old(showRemForm)
    {
      todos := Removed(todos, id);
    }

    /**
     * `submitReminder`: blank text changes nothing; otherwise the reminders
     * context gets the trimmed text, the chosen type and today, and the form
     * goes back to empty text and the "Reminder" type.
     */
    method SubmitReminder(today: string, id: string, createdAt: int)
      modifies this, reminders
      ensures IsBlank(old(remText)) ==>
        reminders.reminders == old(reminders.reminders) && remText == old(remText) && remType == old(remType)
        && showRemForm == old(showRemForm)
      ensures !IsBlank(old(remText)) ==>
        && reminders.reminders == RemindersContext.Added(old(reminders.reminders),
             RemindersContext.Positional(Trim(old(remText)), Some(old(remType)), Some(today)), today, id, createdAt)
        && remText == "" && remType == RemindersContext.DefaultType && !showRemForm
      ensures todos == old(todos) && todoText == old(todoText) && showTodoForm == old(showTodoForm)
    {
      if IsBlank(remText) {
        return;
      }
      reminders.AddReminder(RemindersContext.Positional(Trim(remText), Some(remType), Some(today)), today, id, createdAt);
      remText := "";
      remType := RemindersContext.DefaultType;
      showRemForm := false;
    }
  }

  /** What a non-blank quick reminder adds: one unhandled reminder for today with the trimmed text and the chosen type. */
  lemma SubmittedReminder(rs: seq<RemindersContext.Reminder>, text: string, kind: string, today: string, id: string, createdAt: int)
    requires !IsBlank(text)
    ensures var r := RemindersContext.Added(rs, RemindersContext.Positional(Trim(text), Some(kind), Some(today)), today, id, createdAt);
      && |r| == |rs| + 1 && r[1..] == rs
      && r[0] == RemindersContext.Reminder(id, Trim(text), kind, today, false, createdAt)
  {
    TrimOfTrimmed(Trim(text));
  }
}
