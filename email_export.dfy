/**
 * The e-mail export: the five lists read from the first storage key that
 * holds each, and the plain-text report built from them, one section per
 * selected checkbox, joined with newlines.
 */
module EmailExport {
  import opened Wrappers
  import opened Strings
  import opened Lists
  import opened Json
  import opened Sorting
  import opened Identity
  import opened ExportText

  // ---------------------------------------------------------------- reading the data

  /** The `user` argument: a string is the identity itself, a record is searched for one. */
  datatype UserArg = ByName(s: string) | ByRecord(who: Who)

  /** The identity in the per-user keys: the string, else email, username, id or name, else "guest". */
  function UserOf(user: UserArg): (u: string)
    ensures user.ByName? ==> u == user.s
    ensures user.ByRecord? && user.who == Nobody ==> u == "guest"
    ensures user.ByRecord? ==> u != ""
  {
    match user
    case ByName(s) => s
    case ByRecord(w) =>
      FirstNonEmptyNonEmpty([w.email, w.username, w.id, w.name], "guest");
      FirstNonEmpty([w.email, w.username, w.id, w.name], "guest")
  }

  /** The candidate keys of each list, in the order they are tried. */
  function SessionKeys(u: string): seq<string>
  {
    ["taskflow_work_sessions_v1", "taskflow_work_sessions", "taskflow_work_sessions_" + u]
  }

  function ExpenseKeys(u: string): seq<string>
  {
    ["taskflow_expenses_v1", "taskflow_expenses", "taskflow_expenses_" + u]
  }

  function GoalKeys(u: string): seq<string>
  {
    ["taskflow_goals_v1", "taskflow_goals", "taskflow_goals_" + u]
  }

  function ReminderKeys(u: string): seq<string>
  {
    ["taskflow_reminders_v1", "taskflow_reminders", "taskflow_reminders_" + u]
  }

  function TodoKeys(u: string): seq<string>
  {
    ["taskflow:" + u + ":todos", "taskflow_todos_v1", "taskflow_todos", "taskflow_todos_" + u]
  }

  /** What the report is built from; each field is whatever was stored, array or not. */
  datatype Data = Data(workSessions: Json, expenses: Json, goals: Json, todos: Json, reminders: Json)

  /** `readTaskFlowData`: each list picked from its candidate keys, `[]` when none holds anything. */
  function TaskFlowData(st: Storage, user: UserArg): (d: Data)
  {
    var u := UserOf(user);
    Data(FirstExisting(st, SessionKeys(u), JArr([])), FirstExisting(st, ExpenseKeys(u), JArr([])),
         FirstExisting(st, GoalKeys(u), JArr([])), FirstExisting(st, TodoKeys(u), JArr([])),
         FirstExisting(st, ReminderKeys(u), JArr([])))
  }

  /** `readTaskFlowData` with its `pick` loops. */
  method ReadTaskFlowData(st: Storage, user: UserArg) returns (d: Data)
    ensures d == TaskFlowData(st, user)
  {
    var u := UserOf(user);
    var sessions := ReadFirstExisting(st, SessionKeys(u), JArr([]));
    var expenses := ReadFirstExisting(st, ExpenseKeys(u), JArr([]));
    var goals := ReadFirstExisting(st, GoalKeys(u), JArr([]));
    var todos := ReadFirstExisting(st, TodoKeys(u), JArr([]));
    var reminders := ReadFirstExisting(st, ReminderKeys(u), JArr([]));
    d := Data(sessions, expenses, goals, todos, reminders);
  }

  /**
   * The shared keys win over the per-user one: with "taskflow_goals_v1"
   * absent and "taskflow_goals" holding a list, that list is read whoever
   * the user is; with no key present the goals are `[]`.
   */
  lemma SharedGoalsWin(st: Storage, user: UserArg, goals: seq<Json>)
    requires !Present(st, "taskflow_goals_v1") && "taskflow_goals" in st && st["taskflow_goals"] == Doc(JArr(goals))
    ensures TaskFlowData(st, user).goals == JArr(goals)
  {
    FirstExistingAt(st, GoalKeys(UserOf(user)), JArr([]), 1);
  }

  lemma NothingStored(st: Storage, user: UserArg)
    requires forall k :: k in st ==> st[k] == Blank
    ensures TaskFlowData(st, user) == Data(JArr([]), JArr([]), JArr([]), JArr([]), JArr([]))
  {
    var u := UserOf(user);
    FirstExistingNone(st, SessionKeys(u), JArr([]));
    FirstExistingNone(st, ExpenseKeys(u), JArr([]));
    FirstExistingNone(st, GoalKeys(u), JArr([]));
    FirstExistingNone(st, TodoKeys(u), JArr([]));
    FirstExistingNone(st, ReminderKeys(u), JArr([]));
  }

  // ---------------------------------------------------------------- number formats

  /** `Number(v ?? 0) || 0`: a missing or unreadable amount counts as 0. */
  function AmountOf(v: Option<Json>): (n: int)
    ensures !Truthy(v) ==> n == 0
    ensures v.Some? && v.value.JNum? ==> n == v.value.n
  {
    match NumberOf(Nullish(v, Some(JNum(0))))
    case Some(n) => n
    case None => 0
  }

  /** `currency(v)`: `Number(v || 0)`, with "$0.00" for `NaN`. */
  function Currency(v: Option<Json>): (r: string)
    ensures !Truthy(v) ==> r == "$0.00"
    ensures v.Some? && v.value.JNum? ==> r == Money(v.value.n)
  {
    match NumberOf(v)
    case Some(n) => Money(n)
    case None => "$0.00"
  }

  // ---------------------------------------------------------------- report pieces

  /** The checkboxes of the export dialog. */
  datatype Sections = Sections(workHours: bool, earnings: bool, expenses: bool, goals: bool, todos: bool, reminders: bool)

  const Title: string := "TaskFlow Export Report"
  const Rule: string := "----------------------------------------"
  const EndLine: string := "— End of report —"

  /** `items.forEach((x, i) => lines.push(`${i + 1}. …`))`. */
  function Numbered<T>(items: seq<T>, body: T -> string): (r: seq<string>)
    ensures |r| == |items|
    ensures forall i :: 0 <= i < |items| ==> r[i] == NatToString(i + 1) + ". " + body(items[i])
  {
    seq(|items|, i requires 0 <= i < |items| => NatToString(i + 1) + ". " + body(items[i]))
  }

  /** The numbered lines pushed one by one. */
  method PushNumbered<T>(lines: seq<string>, items: seq<T>, body: T -> string) returns (r: seq<string>)
    ensures r == lines + Numbered(items, body)
  {
    r := lines;
    var i := 0;
    while i < |items|
      invariant 0 <= i <= |items|
      invariant r == lines + Numbered(items[..i], body)
    {
      assert Numbered(items[..i + 1], body) == Numbered(items[..i], body) + [NatToString(i + 1) + ". " + body(items[i])];
      r := r + [NatToString(i + 1) + ". " + body(items[i])];
      i := i + 1;
    }
    assert items[..i] == items;
  }

  /**
   * A section: its header lines, then, when there is anything to list, a
   * blank line, the list's title and the numbered items, then a blank line.
   */
  function Section<T>(header: seq<string>, title: string, items: seq<T>, body: T -> string): (r: seq<string>)
    ensures |r| > |header| && r[..|header|] == header && r[|r| - 1] == ""
    ensures items == [] ==> r == header + [""]
    ensures items != [] ==> |r| == |header| + |items| + 3 && r[|header| + 1] == title
  {
    header + (if items != [] then ["", title] + Numbered(items, body) else []) + [""]
  }

  /** A section pushed line by line. */
  method PushSection<T>(lines: seq<string>, header: seq<string>, title: string, items: seq<T>, body: T -> string)
    returns (r: seq<string>)
    ensures r == lines + Section(header, title, items, body)
  {
    r := lines + header;
    if items != [] {
      r := PushNumbered(r + ["", title], items, body);
    }
    r := r + [""];
  }

  /** The five opening lines. */
  function HeadLines(userName: string, generated: string): (r: seq<string>)
  {
    [Title, "User: " + (if userName == "" then "guest" else userName), "Generated: " + generated, Rule, ""]
  }

  function HoursOf(s: Json): int { AmountOf(Get(s, "hours")) }

  function EarningsOf(s: Json): int { AmountOf(Get(s, "earnings")) }

  /** The work section: sessions, then the hours line and the earnings line as selected. */
  function WorkLines(sel: Sections, sessions: seq<Json>): (r: seq<string>)
  {
    if !(sel.workHours || sel.earnings) then []
    else
      ["✅ Work Hours / Earnings", "Total sessions: " + NatToString(|sessions|)]
      + (if sel.workHours then ["Total hours: " + HoursText(Sum(sessions, HoursOf))] else [])
      + (if sel.earnings then ["Total earnings: " + Money(Sum(sessions, EarningsOf))] else [])
      + [""]
  }

  /** `e?.name || e?.title || e?.expenseName || "Expense"`, the type in brackets, and the amount. */
  function ExpenseBody(e: Json): (r: string)
  {
    var name := Text(Or(Or(Or(Get(e, "name"), Get(e, "title")), Get(e, "expenseName")), Some(JStr("Expense"))).value);
    var kind := if Truthy(Get(e, "type")) then " (" + Text(Get(e, "type").value) + ")" else "";
    name + kind + " - " + Currency(Nullish(Get(e, "amount"), Some(JNum(0))))
  }

  /** `expenses.slice(0, 5)`. */
  function ExpensePreview(expenses: seq<Json>): (r: seq<Json>)
    ensures |r| <= 5 && |r| <= |expenses| && r == expenses[..|r|]
    ensures |expenses| <= 5 ==> r == expenses
  {
    Take(expenses, 5)
  }

  /** The expense section's first lines: how many, and the total spent. */
  function ExpenseHeader(expenses: seq<Json>): seq<string>
  {
    ["✅ Expenses", "Total records: " + NatToString(|expenses|),
     "Total spent: " + Money(Sum(expenses, (e: Json) => AmountOf(Get(e, "amount"))))]
  }

  function ExpenseLines(expenses: seq<Json>): (r: seq<string>)
  {
    Section(ExpenseHeader(expenses), "Recent expenses:", ExpensePreview(expenses), ExpenseBody)
  }

  /** A goal with the due date the report reads: `targetDate || dueDate || ""`. */
  function WithDue(g: Json): (r: (Json, Json))
    ensures r.0 == g
    ensures Truthy(Some(r.1)) <==> Truthy(Get(g, "targetDate")) || Truthy(Get(g, "dueDate"))
  {
    (g, Or(Or(Get(g, "targetDate"), Get(g, "dueDate")), Some(JStr(""))).value)
  }

  function DueText(x: (Json, Json)): string { Text(x.1) }

  function HasDue(x: (Json, Json)): bool { Truthy(Some(x.1)) }

  /** Goals with a due date, ordered by the due date's text, the first eight. */
  function Upcoming(goals: seq<Json>): (r: seq<(Json, Json)>)
  {
    var withDue := seq(|goals|, k requires 0 <= k < |goals| => WithDue(goals[k]));
    Take(SortBy(Filter(withDue, HasDue), DueText, LexLess), 8)
  }

  /** The target part of a goal as written, empty when `targetValue` is `null` or missing. */
  function TargetOfAsWritten(g: Json): (r: string)
    ensures r == [] || r[0] == '•'
  {
    var tv := Get(g, "targetValue");
    if tv.Some? && tv.value != JNull then
      TargetAsWrittenGlued(Text(tv.value), Text(Or(Get(g, "unit"), Some(JStr(""))).value));
      TargetAsWritten(Text(tv.value), Text(Or(Get(g, "unit"), Some(JStr(""))).value))
    else ""
  }

  /** The target part of a goal, corrected. */
  function TargetOf(g: Json): (r: string)
    ensures r == [] || StartsWith(r, " • Target:")
  {
    var tv := Get(g, "targetValue");
    if tv.Some? && tv.value != JNull then
      TargetKeepsSeparator(Text(tv.value), Text(Or(Get(g, "unit"), Some(JStr(""))).value));
      Target(Text(tv.value), Text(Or(Get(g, "unit"), Some(JStr(""))).value))
    else ""
  }

  /** Title, category, target and due date of an upcoming goal. */
  function GoalBody(x: (Json, Json)): (r: string)
  {
    var g := x.0;
    var title := Text(Or(Get(g, "title"), Some(JStr("Goal"))).value);
    var cat := if Truthy(Get(g, "category")) then " • " + Text(Get(g, "category").value) else "";
    var due := if Truthy(Some(x.1)) then " • Due: " + Text(x.1) else "";
    title + cat + TargetOf(g) + due
  }

  /** The same line with the target part as written. */
  function GoalBodyAsWritten(x: (Json, Json)): (r: string)
  {
    var g := x.0;
    var title := Text(Or(Get(g, "title"), Some(JStr("Goal"))).value);
    var cat := if Truthy(Get(g, "category")) then " • " + Text(Get(g, "category").value) else "";
    var due := if Truthy(Some(x.1)) then " • Due: " + Text(x.1) else "";
    title + cat + TargetOfAsWritten(g) + due
  }

  function GoalHeader(goals: seq<Json>): seq<string>
  {
    ["✅ Goals", "Total goals: " + NatToString(|goals|)]
  }

  function GoalLines(goals: seq<Json>): (r: seq<string>)
  {
    Section(GoalHeader(goals), "Upcoming goals:", Upcoming(goals), GoalBody)
  }

  predicate TodoDone(t: Json) { Truthy(Get(t, "done")) }

  predicate TodoPending(t: Json) { !Truthy(Get(t, "done")) }

  function TodoBody(t: Json): string { Text(Or(Get(t, "text"), Some(JStr("Todo"))).value) }

  /** `todos.filter((t) => !t?.done).slice(0, 10)`. */
  function PendingTodos(todos: seq<Json>): (r: seq<Json>)
  {
    Take(Filter(todos, TodoPending), 10)
  }

  /** The todo section's first lines: how many, how many done and how many pending. */
  function TodoHeader(todos: seq<Json>): seq<string>
  {
    var done := Count(todos, TodoDone);
    ["✅ Todos", "Total todos: " + NatToString(|todos|), "Completed: " + NatToString(done),
     "Pending: " + NatToString(|todos| - done)]
  }

  function TodoLines(todos: seq<Json>): (r: seq<string>)
  {
    Section(TodoHeader(todos), "Pending todos:", PendingTodos(todos), TodoBody)
  }

  predicate Handled(r: Json) { Truthy(Get(r, "handled")) }

  function DatedOn(today: string): Json -> bool
  {
    (r: Json) => Text(Or(Get(r, "date"), Some(JStr(""))).value) == today
  }

  /** `reminders.filter((r) => String(r?.date || "") === today).slice(0, 10)`. */
  function TodaysReminders(reminders: seq<Json>, today: string): (r: seq<Json>)
  {
    Take(Filter(reminders, DatedOn(today)), 10)
  }

  function ReminderBody(r: Json): string
  {
    var status := if Handled(r) then "✅" else "⏳";
    var kind := if Truthy(Get(r, "type")) then " (" + Text(Get(r, "type").value) + ")" else "";
    status + " " + Text(Or(Get(r, "text"), Some(JStr("Reminder"))).value) + kind
  }

  /** The reminder section's first lines: how many, how many handled and how many pending. */
  function ReminderHeader(reminders: seq<Json>): seq<string>
  {
    var handled := Count(reminders, Handled);
    ["✅ Reminders", "Total reminders: " + NatToString(|reminders|), "Handled: " + NatToString(handled),
     "Pending: " + NatToString(|reminders| - handled)]
  }

  function ReminderLines(reminders: seq<Json>, today: string): (r: seq<string>)
  {
    Section(ReminderHeader(reminders), "Today (" + today + ") reminders:", TodaysReminders(reminders, today), ReminderBody)
  }

  /** A section's lines when its checkbox is ticked, nothing otherwise. */
  function When(ticked: bool, lines: seq<string>): seq<string>
  {
    if ticked then lines else []
  }

  /** The opening lines, the ticked sections in their fixed order, and the end line. */
  function Assemble(opening: seq<string>, sel: Sections, expenses: seq<string>, goals: seq<string>,
                    todos: seq<string>, reminders: seq<string>): (r: seq<string>)
  {
    opening + When(sel.expenses, expenses) + When(sel.goals, goals) + When(sel.todos, todos)
    + When(sel.reminders, reminders) + [EndLine]
  }

  /** Every line of the report, section after section; `generated` and `today` stand for the clock. */
  function ReportLines(userName: string, sel: Sections, data: Data, generated: string, today: string): (r: seq<string>)
  {
    Assemble(HeadLines(userName, generated) + WorkLines(sel, AsArray(Some(data.workSessions))), sel,
             ExpenseLines(AsArray(Some(data.expenses))), GoalLines(AsArray(Some(data.goals))),
             TodoLines(AsArray(Some(data.todos))), ReminderLines(AsArray(Some(data.reminders)), today))
  }

  function Report(userName: string, sel: Sections, data: Data, generated: string, today: string): (r: string)
  {
    Join(ReportLines(userName, sel, data, generated, today), '\n')
  }

  // ---------------------------------------------------------------- building the report

  /** The expense section, pushed when its checkbox is ticked. */
  method PushExpenses(lines: seq<string>, ticked: bool, expenses: seq<Json>) returns (r: seq<string>)
    ensures r == lines + When(ticked, ExpenseLines(expenses))
  {
    r := lines;
    if ticked {
      r := PushSection(lines, ExpenseHeader(expenses), "Recent expenses:", ExpensePreview(expenses), ExpenseBody);
    }
  }

  /** The goal section, pushed when its checkbox is ticked. */
  method PushGoals(lines: seq<string>, ticked: bool, goals: seq<Json>) returns (r: seq<string>)
    ensures r == lines + When(ticked, GoalLines(goals))
  {
    r := lines;
    if ticked {
      r := PushSection(lines, GoalHeader(goals), "Upcoming goals:", Upcoming(goals), GoalBody);
    }
  }

  /** The todo section, pushed when its checkbox is ticked. */
  method PushTodos(lines: seq<string>, ticked: bool, todos: seq<Json>) returns (r: seq<string>)
    ensures r == lines + When(ticked, TodoLines(todos))
  {
    r := lines;
    if ticked {
      r := PushSection(lines, TodoHeader(todos), "Pending todos:", PendingTodos(todos), TodoBody);
    }
  }

  /** The reminder section, pushed when its checkbox is ticked. */
  method PushReminders(lines: seq<string>, ticked: bool, reminders: seq<Json>, today: string) returns (r: seq<string>)
    ensures r == lines + When(ticked, ReminderLines(reminders, today))
  {
    r := lines;
    if ticked {
      r := PushSection(lines, ReminderHeader(reminders), "Today (" + today + ") reminders:",
                       TodaysReminders(reminders, today), ReminderBody);
    }
  }

  /** `buildEmailReport`: the lines pushed section by section, then joined with newlines. */
  method BuildEmailReport(userName: string, sel: Sections, data: Data, generated: string, today: string)
    returns (report: string)
    ensures report == Report(userName, sel, data, generated, today)
  {
    var lines := HeadLines(userName, generated) + WorkLines(sel, AsArray(Some(data.workSessions)));
    lines := PushExpenses(lines, sel.expenses, AsArray(Some(data.expenses)));
    lines := PushGoals(lines, sel.goals, AsArray(Some(data.goals)));
    lines := PushTodos(lines, sel.todos, AsArray(Some(data.todos)));
    lines := PushReminders(lines, sel.reminders, AsArray(Some(data.reminders)), today);
    report := Join(lines + [EndLine], '\n');
  }


  // ---------------------------------------------------------------- what the report promises

  /** Joining puts the last line after the last newline. */
  lemma {:induction false} JoinLast(parts: seq<string>)
    requires |parts| >= 2
    ensures Join(parts, '\n') == Join(parts[..|parts| - 1], '\n') + "\n" + parts[|parts| - 1]
    decreases |parts|
  {
    if |parts| > 2 {
      JoinLast(parts[1..]);
      assert parts[1..][..|parts| - 2] == parts[..|parts| - 1][1..];
    }
  }

  /** Lines joined with newlines begin with the first line and end with the last. */
  lemma JoinFrame(lines: seq<string>)
    requires |lines| >= 2
    ensures var r := Join(lines, '\n');
      StartsWith(r, lines[0] + "\n") && |r| >= |lines[|lines| - 1]| + 1
      && r[|r| - |lines[|lines| - 1]| - 1..] == "\n" + lines[|lines| - 1]
  {
    JoinLast(lines);
    assert Join(lines, '\n') == lines[0] + ['\n'] + Join(lines[1..], '\n');
  }

  /** Whatever is ticked, the assembled lines keep the first opening line first and end with the end line. */
  lemma AssembleFrame(opening: seq<string>, sel: Sections, expenses: seq<string>, goals: seq<string>,
                      todos: seq<string>, reminders: seq<string>)
    requires opening != []
    ensures var lines := Assemble(opening, sel, expenses, goals, todos, reminders);
      |lines| > |opening| && lines[0] == opening[0] && lines[|lines| - 1] == EndLine
  {
    var l1 := opening + When(sel.expenses, expenses);
    var l2 := l1 + When(sel.goals, goals);
    var l3 := l2 + When(sel.todos, todos);
    var l4 := l3 + When(sel.reminders, reminders);
    assert l1[0] == opening[0] && l2[0] == opening[0] && l3[0] == opening[0] && l4[0] == opening[0];
  }

  /**
   * The report's lines open with the title and close with the end line, so
   * that, joined, the report begins with "TaskFlow Export Report" and a
   * newline and ends with a newline and "— End of report —" (`JoinFrame`).
   */
  lemma ReportFrame(userName: string, sel: Sections, data: Data, generated: string, today: string)
    ensures var lines := ReportLines(userName, sel, data, generated, today);
      |lines| >= 6 && lines[0] == Title && lines[|lines| - 1] == EndLine
  {
    var opening := HeadLines(userName, generated) + WorkLines(sel, AsArray(Some(data.workSessions)));
    assert opening[0] == Title;
    AssembleFrame(opening, sel, ExpenseLines(AsArray(Some(data.expenses))), GoalLines(AsArray(Some(data.goals))),
                  TodoLines(AsArray(Some(data.todos))), ReminderLines(AsArray(Some(data.reminders)), today));
  }

  /** The work section appears exactly when hours or earnings are selected. */
  lemma WorkSectionIff(sel: Sections, sessions: seq<Json>)
    ensures WorkLines(sel, sessions) != [] <==> sel.workHours || sel.earnings
    ensures WorkLines(sel, sessions) != [] ==> WorkLines(sel, sessions)[0] == "✅ Work Hours / Earnings"
  {
  }

  function HoursLine(sessions: seq<Json>): string { "Total hours: " + HoursText(Sum(sessions, HoursOf)) }

  function EarningsLine(sessions: seq<Json>): string { "Total earnings: " + Money(Sum(sessions, EarningsOf)) }

  /** The hours line is there exactly when hours are selected, the earnings line exactly when earnings are. */
  lemma WorkLinesAsSelected(sel: Sections, sessions: seq<Json>)
    ensures HoursLine(sessions) in WorkLines(sel, sessions) <==> sel.workHours
    ensures EarningsLine(sessions) in WorkLines(sel, sessions) <==> sel.earnings
  {
    var w := WorkLines(sel, sessions);
    var h, e := HoursLine(sessions), EarningsLine(sessions);
    assert h[6] == 'h' && e[6] == 'e' && h[0] == 'T' && e[0] == 'T';
    if sel.workHours || sel.earnings {
      var head := ["✅ Work Hours / Earnings", "Total sessions: " + NatToString(|sessions|)];
      var hs := if sel.workHours then [h] else [];
      var es := if sel.earnings then [e] else [];
      assert w == head + hs + es + [""];
      assert head[1][6] == 's' && head[0][0] == '✅';
      assert h !in head && e !in head;
      assert h != "" && e != "" && h != e;
    }
  }

  /** At most five expenses are listed, the first five. */
  lemma ExpensePreviewBound(expenses: seq<Json>)
    ensures |ExpensePreview(expenses)| == if |expenses| < 5 then |expenses| else 5
    ensures ExpensePreview(expenses) == expenses[..|ExpensePreview(expenses)|]
  {
  }

  /**
   * The upcoming goals: at most eight, each with a due date, in ascending
   * order of the due date's text, each one of the goals; when no more than
   * eight have a due date, all of them are listed.
   */
  lemma UpcomingFacts(goals: seq<Json>)
    ensures var u := Upcoming(goals);
      && |u| <= 8
      && (forall i :: 0 <= i < |u| ==> HasDue(u[i]) && u[i].0 in goals)
      && SortedBy(u, DueText, LexLess)
    ensures var withDue := seq(|goals|, k requires 0 <= k < |goals| => WithDue(goals[k]));
      |Filter(withDue, HasDue)| <= 8 ==> multiset(Upcoming(goals)) == multiset(Filter(withDue, HasDue))
  {
    var withDue := seq(|goals|, k requires 0 <= k < |goals| => WithDue(goals[k]));
    var f := Filter(withDue, HasDue);
    var sorted := SortBy(f, DueText, LexLess);
    LexIsStrictTotal();
    SortSorted(f, DueText, LexLess);
    var u := Upcoming(goals);
    forall i | 0 <= i < |u| ensures HasDue(u[i]) && u[i].0 in goals {
      assert u[i] == sorted[i];
      assert sorted[i] in multiset(sorted);
      assert u[i] in f;
      var k :| 0 <= k < |withDue| && withDue[k] == u[i];
    }
  }

  /** Completed and pending todos add up to all todos; at most ten pending ones are listed, none of them done. */
  lemma TodoCounts(todos: seq<Json>)
    ensures Count(todos, TodoDone) + Count(todos, TodoPending) == |todos|
    ensures |PendingTodos(todos)| <= 10
    ensures forall i :: 0 <= i < |PendingTodos(todos)| ==> !TodoDone(PendingTodos(todos)[i])
  {
    CountSplit(todos, TodoDone);
    assert Count(todos, TodoPending) == Count(todos, x => !TodoDone(x)) by {
      CountSame(todos, TodoPending, x => !TodoDone(x));
    }
    var f := Filter(todos, TodoPending);
    forall i | 0 <= i < |PendingTodos(todos)| ensures !TodoDone(PendingTodos(todos)[i]) {
      assert PendingTodos(todos)[i] == f[i];
      assert f[i] in f;
    }
  }

  lemma {:induction false} CountSame<T>(s: seq<T>, p: T -> bool, q: T -> bool)
    requires forall x :: p(x) == q(x)
    ensures Count(s, p) == Count(s, q)
    decreases |s|
  {
    if s != [] {
      CountSame(s[1..], p, q);
    }
  }

  /** Handled and pending reminders add up to all reminders; today's list holds at most ten, all dated today. */
  lemma ReminderCounts(reminders: seq<Json>, today: string)
    ensures Count(reminders, Handled) <= |reminders|
    ensures |TodaysReminders(reminders, today)| <= 10
    ensures forall i :: 0 <= i < |TodaysReminders(reminders, today)| ==> DatedOn(today)(TodaysReminders(reminders, today)[i])
  {
    var f := Filter(reminders, DatedOn(today));
    forall i | 0 <= i < |TodaysReminders(reminders, today)| ensures DatedOn(today)(TodaysReminders(reminders, today)[i]) {
      assert TodaysReminders(reminders, today)[i] == f[i];
      assert f[i] in f;
    }
  }
}
