/**
 * The per-user todo list: todos `{id, text, done, createdAt}` kept newest
 * first under "taskflow:<identity>:todos", the identity being the user's
 * e-mail, else user name, else id, else "guest".
 */
module TodosContext {
  import opened Wrappers
  import opened Strings
  import opened Lists
  import opened Identity
  import UserStorage

  datatype Todo = Todo(id: string, text: string, done: bool, createdAt: string)

  function TodoId(t: Todo): string { t.id }

  /** `{ ...t, done: !t.done }`. */
  function Toggle(t: Todo): (r: Todo)
    ensures r.id == t.id && r.text == t.text && r.createdAt == t.createdAt && r.done == !t.done
  {
    t.(done := !t.done)
  }

  /** `storageKey`: the identity is taken in the order e-mail, user name, id. */
  function StorageKey(u: Who): (k: string)
    ensures u.email != "" ==> k == "taskflow:" + u.email + ":todos"
    ensures u.email == "" && u.username != "" ==> k == "taskflow:" + u.username + ":todos"
    ensures u.email == "" && u.username == "" && u.id != "" ==> k == "taskflow:" + u.id + ":todos"
    ensures u.email == "" && u.username == "" && u.id == "" ==> k == "taskflow:guest:todos"
  {
    var cands := [u.email, u.username, u.id];
    assert cands[0] == u.email && cands[1] == u.username && cands[2] == u.id;
    "taskflow:" + FirstNonEmpty(cands, "guest") + ":todos"
  }

  /**
   * The two todo keys agree unless the user has no e-mail but both a user
   * name and an id: then this list and the one `loadTodos` reads are
   * different keys.
   */
  lemma KeyOrderDiffers(u: Who)
    requires u.email == "" && u.username != "" && u.id != "" && u.username != u.id
    ensures StorageKey(u) != UserStorage.TodosKey(u)
  {
    var a, b := StorageKey(u), UserStorage.TodosKey(u);
    assert a == "taskflow:" + u.username + ":todos";
    assert b == "taskflow:" + u.id + ":todos";
    assert a[9..|a| - 6] == u.username;
    assert b[9..|b| - 6] == u.id;
  }

  lemma KeysAgreeWithEmail(u: Who)
    requires u.email != "" || u.username == "" || u.id == ""
    ensures StorageKey(u) == UserStorage.TodosKey(u)
  {
  }

  /** `addTodo`: nothing for blank text, else a new undone todo with the trimmed text in front. */
  function Added(todos: seq<Todo>, text: string, id: string, createdAt: string): (r: seq<Todo>)
    ensures IsBlank(text) ==> r == todos
    ensures !IsBlank(text) ==> |r| == |todos| + 1 && r[1..] == todos
    ensures !IsBlank(text) ==> r[0].id == id && r[0].text == Trim(text) && !r[0].done && r[0].createdAt == createdAt
    ensures !IsBlank(text) ==> r[0].text != [] && Trim(r[0].text) == r[0].text
  {
    if IsBlank(text) then todos
    else
      TrimOfTrimmed(Trim(text));
      [Todo(id, Trim(text), false, createdAt)] + todos
  }

  /** `toggleTodo`: `done` flipped on the todos with that id, every other field and todo kept. */
  function Toggled(todos: seq<Todo>, id: string): (r: seq<Todo>)
    ensures |r| == |todos|
    ensures forall k :: 0 <= k < |todos| ==> r[k].id == todos[k].id && r[k].text == todos[k].text
    ensures forall k :: 0 <= k < |todos| ==> r[k].done == (if todos[k].id == id then !todos[k].done else todos[k].done)
    ensures forall k :: 0 <= k < |todos| && todos[k].id != id ==> r[k] == todos[k]
  {
    UpdateId(todos, id, TodoId, Toggle)
  }

  /** `deleteTodo`. */
  function Deleted(todos: seq<Todo>, id: string): (r: seq<Todo>)
    ensures forall k :: 0 <= k < |r| ==> r[k].id != id && r[k] in todos
    ensures forall k :: 0 <= k < |todos| && todos[k].id != id ==> todos[k] in r
  {
    WithoutId(todos, id, TodoId)
  }

  /** Toggling the same todo twice restores the list. */
  lemma ToggleTwice(todos: seq<Todo>, id: string)
    ensures Toggled(Toggled(todos, id), id) == todos
  {
    UpdateIdTwice(todos, id, TodoId, Toggle);
  }

  /** Deleting a todo just added under a fresh id restores the list. */
  lemma DeleteUndoesAdd(todos: seq<Todo>, text: string, id: string, createdAt: string)
    requires forall k :: 0 <= k < |todos| ==> todos[k].id != id
    ensures Deleted(Added(todos, text, id, createdAt), id) == todos
  {
    if !IsBlank(text) {
      var x := Todo(id, Trim(text), false, createdAt);
      WithoutFreshHead(x, todos, TodoId);
    } else {
      assert WithoutId(todos, id, TodoId) == todos;
    }
  }

  /** The todos context: the list and the key it is kept under. */
  class TodoList {
    const key: string
    var todos: seq<Todo>

    /** Loading: the stored list, or `[]` when the key is absent, empty or unreadable (`saved` is `None`). */
    constructor(user: Who, saved: Option<seq<Todo>>)
      ensures key == StorageKey(user)
      ensures todos == saved.GetOr([])
    {
      key := StorageKey(user);
      todos := saved.GetOr([]);
    }

    method AddTodo(text: string, id: string, createdAt: string)
      modifies this
      ensures todos == Added(old(todos), text, id, createdAt)
    {
      todos := Added(todos, text, id, createdAt);
    }

    method ToggleTodo(id: string)
      modifies this
      ensures todos == Toggled(old(todos), id)
    {
      todos := Toggled(todos, id);
    }

    method DeleteTodo(id: string)
      modifies this
      ensures todos == Deleted(old(todos), id)
    {
      todos := Deleted(todos, id);
    }
  }
}
