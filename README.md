# TaskFlow, modelled in Dafny

TaskFlow is a browser-only productivity app. Every feature keeps its records in `localStorage`:

- todos and reminders, kept as flat lists and as per-day maps;
- habits with their completion days;
- goals and notes;
- work sessions and expenses;
- calendar reminders;
- Pomodoro statistics;
- the chat history.

Its pages and contexts read those stores, change them through add / toggle / delete operations, and show counts, percentages and reports computed from them. A rule-based chat assistant ("Chinni") reads free text. It creates reminders, notes and todos from that text, opens pages, and answers questions about the stored data.

This project models that core: one Dafny module per source file, plus a few shared modules.

**The stores**
- `Json` models a stored value. `Storage`, a map from key to `Blank`, `Garbage` or a parsed document, models `localStorage`. `SafeParse` models `safeParse` with its fallback.
- `DayStore` models the per-day maps and the migration from legacy flat arrays.

**Shared helpers**
- `Strings`: trimming, case, white space, splitting, number text.
- `Dates`: day numbers, ISO text, weekdays, week and month starts.
- `Lists`: filters, counts, sums.
- `Sorting`: a stable sort.
- `Identity` and `Records`: the `a || b || "guest"` fallbacks and object spreading.

**The entity stores**
- Each one with a list or map field updated in place is a `class`:
  - `TodosContext.TodoList`, `RemindersContext.ReminderList`, `HabitsContext.HabitList`, `GoalsContext.GoalList` and `NotesContext.NoteList`;
  - `AppDataContext.AppData` and `Auth.Provider`;
  - the pages `HomePage.Home`, `DashboardPage.Dashboard`, `CalendarPage.Calendar` and `WorkHours.Page`;
  - the forms of the notes, goals and habits pages;
  - `Focus.Timer`, `TopBar.SearchBar` and `EmailExportModal.Dialog`.
- Their methods are specified by pure functions over the lists (`Added`, `Toggled`, `Removed`, …). Those functions carry the "only the matching id changes", "nothing else changes" and undo properties.

**The chat assistant**
- `ChatIntents` holds the keyword classifiers and the page router.
- `ChatParse` holds the hand-coded time, date, token-stripping and note parsers.
- `ChatBot.Session` holds the message list and the storage that `send` updates.

**Aggregation**
- `Analytics` covers the todo merge and de-duplication, the counters and the weekly buckets.
- `EmailExport`, `ExportText` and `EmailExportModal` cover the e-mail report.

**Inputs from outside**
- The clock ("today", `Date.now()`), random ids, the stored chat history and the date selected on the calendar are parameters.
- Amounts are whole numbers. `WorkHours` keeps money in cents and durations in minutes.

## Model

| member | source | states |
|---|---|---|
| AppDataContext.ToggleReminder | src/app/AppDataContext.jsx:77 | the reminder keeps its id and every other field, and its `done` flag is negated |
| AppDataContext.TimeOrDefault | src/app/AppDataContext.jsx:66 | an empty time becomes "09:00"; any other time is trimmed |
| AppDataContext.BlankTimeStaysEmpty | src/app/AppDataContext.jsx:66 | a time made only of blanks is not replaced by the default; it is stored as "" |
| AppDataContext.AddedReminder | src/app/AppDataContext.jsx:57-73 | without a date, or with a blank title, the list is unchanged; otherwise one open reminder with the trimmed title goes in front of the old list |
| AppDataContext.ToggledReminders | src/app/AppDataContext.jsx:75-79 | the length and ids are kept, `done` is flipped exactly on the matching id, and nothing else changes |
| AppDataContext.DeletedReminders | src/app/AppDataContext.jsx:81-83 | exactly the reminders without the id remain |
| AppDataContext.ToggleReminderTwice | src/app/AppDataContext.jsx:75-79 | toggling the same reminder twice restores the list |
| AppDataContext.StorageKeys | src/app/AppDataContext.jsx:5-28 | the demo user "ar" saves under "taskflow:ar:todos" and "taskflow:ar:reminders" |
| AppDataContext.AppData.constructor | src/app/AppDataContext.jsx:14-20 | both lists are loaded, and a list with nothing usable stored starts empty |
| AppDataContext.AppData.AddTodo | src/app/AppDataContext.jsx:31-44 | the todos become the added list and the reminders are unchanged |
| AppDataContext.AppData.ToggleTodo | src/app/AppDataContext.jsx:46-50 | the todos become the toggled list and the reminders are unchanged |
| AppDataContext.AppData.DeleteTodo | src/app/AppDataContext.jsx:52-54 | the todos lose the id and the reminders are unchanged |
| AppDataContext.AppData.AddReminder | src/app/AppDataContext.jsx:57-73 | the reminders become the added list and the todos are unchanged |
| AppDataContext.AppData.ToggleReminder | src/app/AppDataContext.jsx:75-79 | the reminders become the toggled list and the todos are unchanged |
| AppDataContext.AppData.DeleteReminder | src/app/AppDataContext.jsx:81-83 | the reminders lose the id and the todos are unchanged |
| TodosContext.Toggle | src/app/TodosContext.jsx:49 | the todo keeps its id, text and creation time, and its `done` flag is negated |
| TodosContext.StorageKey | src/app/TodosContext.jsx:6-9 | "taskflow:" + the e-mail, else the user name, else the id, else "guest", then ":todos" |
| TodosContext.KeyOrderDiffers | src/app/TodosContext.jsx:6-9 | for a user without an e-mail but with a distinct user name and id, this key differs from the one the shared storage helper uses |
| TodosContext.KeysAgreeWithEmail | src/app/TodosContext.jsx:6-9 | in every other case the two todo keys are equal |
| TodosContext.Added | src/app/TodosContext.jsx:32-45 | blank text leaves the list unchanged; otherwise one undone todo with the trimmed, non-empty text goes in front |
| TodosContext.Toggled | src/app/TodosContext.jsx:47-51 | the length, ids and texts are kept, `done` is flipped exactly on the matching id, and the other todos are unchanged |
| TodosContext.Deleted | src/app/TodosContext.jsx:53-55 | exactly the todos without the id remain |
| TodosContext.ToggleTwice | src/app/TodosContext.jsx:47-51 | toggling the same todo twice restores the list |
| TodosContext.DeleteUndoesAdd | src/app/TodosContext.jsx:32-55 | deleting a todo just added under a fresh id restores the list |
| TodosContext.TodoList.constructor | src/app/TodosContext.jsx:16-24 | the key is the user's key, and the todos are the stored list or `[]` |
| TodosContext.TodoList.AddTodo | src/app/TodosContext.jsx:32-45 | the todos become the added list |
| TodosContext.TodoList.ToggleTodo | src/app/TodosContext.jsx:47-51 | the todos become the toggled list |
| TodosContext.TodoList.DeleteTodo | src/app/TodosContext.jsx:53-55 | the todos lose the id |
| RemindersContext.FlipHandled | src/app/RemindersContext.jsx:73 | the reminder keeps every field except `handled`, which is negated |
| RemindersContext.Resolve | src/app/RemindersContext.jsx:43-50 | the object form takes `text ?? title ?? ""`, `type ?? "Reminder"` and `date ?? dateISO ?? today`; the positional form defaults a missing type to "Reminder" and a missing date to today |
| RemindersContext.Added | src/app/RemindersContext.jsx:52-64 | blank text leaves the list unchanged; otherwise one unhandled reminder with the trimmed text and the resolved type and date goes in front |
| RemindersContext.Removed | src/app/RemindersContext.jsx:67-69 | exactly the reminders without the id remain |
| RemindersContext.Toggled | src/app/RemindersContext.jsx:71-75 | the length is kept, `handled` is flipped exactly on the matching id, and nothing else changes |
| RemindersContext.ToggleTwice | src/app/RemindersContext.jsx:71-75 | toggling the same reminder twice restores the list |
| RemindersContext.RemoveUndoesAdd | src/app/RemindersContext.jsx:52-69 | removing a reminder just added under a fresh id restores the list |
| RemindersContext.ForDate | src/app/RemindersContext.jsx:77-81 | exactly the reminders of the date, as a permutation of the filter, newest first |
| RemindersContext.ForDateKeepsTies | src/app/RemindersContext.jsx:77-81 | reminders created at the same moment keep the list's order, because the sort is stable |
| RemindersContext.ReminderList.constructor | src/app/RemindersContext.jsx:20-27 | the reminders are the stored list, or `[]` when the key is absent, empty or unreadable |
| RemindersContext.ReminderList.AddReminder | src/app/RemindersContext.jsx:43-65 | the reminders become the added list |
| RemindersContext.ReminderList.RemoveReminder | src/app/RemindersContext.jsx:67-69 | the reminders lose the id |
| RemindersContext.ReminderList.ToggleHandled | src/app/RemindersContext.jsx:71-75 | the reminders become the toggled list |
| HabitsContext.AddedHabit | src/app/HabitsContext.jsx:25-30 | one habit with the title and no completions goes in front of the old list |
| HabitsContext.RemovedHabit | src/app/HabitsContext.jsx:32-34 | exactly the habits without the id remain |
| HabitsContext.RemoveUndoesAdd | src/app/HabitsContext.jsx:25-34 | removing a habit just added under a fresh id restores the list |
| HabitsContext.ToggleDay | src/app/HabitsContext.jsx:44-46 | a day that is there is removed everywhere and nothing else changes; a day that is missing is appended |
| HabitsContext.ToggleDayTwice | src/app/HabitsContext.jsx:44-46 | switching a missing day on and then off restores the completions |
| HabitsContext.ToggledToday | src/app/HabitsContext.jsx:36-50 | the habits with the id have today switched and their other fields kept; other habits are unchanged |
| HabitsContext.ToggleTodayTwice | src/app/HabitsContext.jsx:36-50 | toggling twice on a habit not done today restores the list |
| HabitsContext.DaysBack | src/app/HabitsContext.jsx:61 | stepping back any number of days from a valid date gives a valid date |
| HabitsContext.DaysBackNumber | src/app/HabitsContext.jsx:61 | stepping back k days lowers the day number by exactly k |
| HabitsContext.DaysBackDistinct | src/app/HabitsContext.jsx:58-61 | different numbers of steps back give different date texts |
| HabitsContext.AllInStep | src/app/HabitsContext.jsx:57-62 | one more day found extends the run of days present |
| HabitsContext.StreakUnique | src/app/HabitsContext.jsx:52-64 | at most one number is the streak: a run of days present ending at a missing day |
| HabitsContext.StreakWithoutToday | src/app/HabitsContext.jsx:57-59 | without today in the list, the streak is 0 |
| HabitsContext.DistinctWithin | src/app/HabitsContext.jsx:54 | distinct values drawn from a set are no more numerous than the set |
| HabitsContext.StreakWithinDays | src/app/HabitsContext.jsx:52-64 | a run of n days present means the list has at least n different days |
| HabitsContext.ComputeStreak | src/app/HabitsContext.jsx:52-64 | the loop returns the streak: every day back to it is present and the next one is not; it stops within the number of distinct days listed |
| HabitsContext.HabitList.constructor | src/app/HabitsContext.jsx:10-19 | the habits are the stored list, or `[]` when the key is absent, `null` or unreadable |
| HabitsContext.HabitList.AddHabit | src/app/HabitsContext.jsx:25-30 | the habits become the added list |
| HabitsContext.HabitList.RemoveHabit | src/app/HabitsContext.jsx:32-34 | the habits lose the id |
| HabitsContext.HabitList.ToggleToday | src/app/HabitsContext.jsx:36-50 | the habits become the toggled list for today |
| NotesContext.NoteList.constructor | src/app/NotesContext.jsx:15 | the notes are the stored list, and `[]` when the key is absent or unreadable |
| NotesContext.NoteList.Saved | src/app/NotesContext.jsx:17-19 | the storage after the save effect reads back as the current notes |
| NotesContext.NoteList.AddNote | src/app/NotesContext.jsx:21-26 | the new note, with the fresh id and creation time, goes in front of the old list |
| NotesContext.NoteList.RemoveNote | src/app/NotesContext.jsx:28 | every note with that id goes; the others keep their order |
| NotesContext.ReloadAfterSave | src/app/NotesContext.jsx:15-19 | reading the list back after it was saved gives the same notes |
| GoalsContext.GoalList.constructor | src/app/GoalsContext.jsx:15 | the goals are the stored list, and `[]` when the key is absent or unreadable |
| GoalsContext.GoalList.Saved | src/app/GoalsContext.jsx:17-19 | the storage after the save effect reads back as the current goals |
| GoalsContext.GoalList.AddGoal | src/app/GoalsContext.jsx:21-26 | the new goal, with the fresh id and creation time, goes in front of the old list |
| GoalsContext.GoalList.RemoveGoal | src/app/GoalsContext.jsx:28 | every goal with that id goes; the others keep their order |
| GoalsContext.ReloadAfterSave | src/app/GoalsContext.jsx:15-19 | reading the list back after it was saved gives the same goals |
| NotesPage.NoteRecord | src/pages/Notes.jsx:46-52 | the record holds the five form fields under their names, without repeated keys and without an id or creation time |
| NotesPage.NoteFieldsRead | src/pages/Notes.jsx:41-52 | the note built holds the trimmed title and content, the color and flag, and the password only when the note is protected |
| NotesPage.UnprotectedHasNoPassword | src/pages/Notes.jsx:51 | an unprotected note stores "" as its password, whatever was typed |
| NotesPage.NoteForm.constructor | src/pages/Notes.jsx:21-26 | the form starts closed, with the initial field values |
| NotesPage.NoteForm.Reset | src/pages/Notes.jsx:33-39 | the five fields go back to their initial values, and `open` is kept |
| NotesPage.NoteForm.OnCreate | src/pages/Notes.jsx:41-56 | if the trimmed title or content is empty, nothing changes; otherwise the note goes in front of the list, and the form is reset and closed |
| GoalsPage.TargetNumber | src/pages/Goals.jsx:25 | text that does not parse gives 0, and an unsigned whole number gives itself |
| GoalsPage.UnitOrDefault | src/pages/Goals.jsx:26 | a blank unit gives "tasks"; any other unit is trimmed; the result is never empty |
| GoalsPage.GoalRecord | src/pages/Goals.jsx:22-29 | the record holds the six form fields under their names, without repeated keys and without an id or creation time |
| GoalsPage.GoalFieldsRead | src/pages/Goals.jsx:18-29 | the goal built holds the trimmed title and description, the target number, the unit or its default, the category and the date |
| GoalsPage.StoredGoal | src/pages/Goals.jsx:22-29 | the stored goal keeps the form's title, unit and target beside its new id, without repeated keys |
| GoalsPage.GoalForm.constructor | src/pages/Goals.jsx:7-16 | the form starts with an empty title, 10 tasks, "Productivity", and a date 30 days after today |
| GoalsPage.GoalForm.OnCreate | src/pages/Goals.jsx:18-33 | a blank title changes nothing; otherwise the goal goes in front of the list, and only the title and description are cleared |
| HabitsPage.PickQuote | src/pages/Habits.jsx:13-15 | the result is one of the quotes |
| HabitsPage.PickQuoteCycles | src/pages/Habits.jsx:13-15 | the quote repeats every five seeds, and seeds 0 to 4 give the quotes in order |
| HabitsPage.DailySeedInjective | src/pages/Habits.jsx:52-57 | two different days of the common era never give the same seed |
| HabitsPage.ComputeStats | src/pages/Habits.jsx:27-42 | the loop returns the number of habits and the number done today; `best` bounds every streak; the title is that of the first habit reaching `best`, or "" when `best` is 0 |
| HabitsPage.Raise | src/pages/Habits.jsx:35-38 | a streak above the best so far becomes the best, with its habit's title |
| HabitsPage.Keep | src/pages/Habits.jsx:34-39 | a streak not above the best leaves the best and its title, because the comparison is strict |
| HabitsPage.HabitForm.constructor | src/pages/Habits.jsx:24-25 | the form starts closed, with an empty title |
| HabitsPage.HabitForm.OnCreate | src/pages/Habits.jsx:44-50 | a blank title changes nothing; otherwise the habit is added under its trimmed, non-empty title, and the field is cleared and closed |
| CalendarPage.Lead | src/pages/Calendar.jsx:38-41 | the number of leading cells, the weekday of the first of the month, is below 7 |
| CalendarPage.DayOffset | src/pages/Calendar.jsx:48-55 | `new Date(year, month - 1, k)` is k - 1 days after the first of the month, for any k |
| CalendarPage.BuildMonthGrid | src/pages/Calendar.jsx:34-69 | the loops produce consecutive days starting `lead` days before the first; exactly the month's days are marked in the month; the count is a multiple of 7, at least lead + total and below lead + total + 7 |
| CalendarPage.GridStartsOnSunday | src/pages/Calendar.jsx:41-50 | the first cell of the grid is a Sunday |
| CalendarPage.ReminderItemFields | src/pages/Calendar.jsx:165-171 | the new reminder has the id, the text, the time and `done: false` |
| CalendarPage.TimeOrDefault | src/pages/Calendar.jsx:168 | a blank time gives "09:00"; any other time is trimmed; the result is never empty |
| CalendarPage.Split | src/pages/Calendar.jsx:143-145 | the pending list holds exactly the day's reminders that are not done, and the completed list exactly those that are; together they are the day's list |
| CalendarPage.Loaded | src/pages/Calendar.jsx:87-96 | the stored map, or `{}` when the key is absent, empty or unreadable |
| CalendarPage.SaveThenLoad | src/pages/Calendar.jsx:87-111 | saving the map and loading it again gives the same map |
| CalendarPage.Calendar.constructor | src/pages/Calendar.jsx:72-85 | today is selected, the map is empty, and the add form is closed with "09:00" |
| CalendarPage.Calendar.LoadFromStorage | src/pages/Calendar.jsx:87-96 | the map becomes what the storage loads as |
| CalendarPage.Calendar.Save | src/pages/Calendar.jsx:103-111 | the storage gets the map under its key |
| CalendarPage.Calendar.Select | src/pages/Calendar.jsx:78 | the selected day becomes the one clicked |
| CalendarPage.Calendar.OpenAdd | src/pages/Calendar.jsx:154-158 | the form opens with empty text and "09:00" |
| CalendarPage.Calendar.AddReminder | src/pages/Calendar.jsx:160-178 | blank text changes nothing; otherwise the selected day's list gains the new reminder in front, and the form closes |
| CalendarPage.Calendar.ToggleDone | src/pages/Calendar.jsx:180-186 | `done` is flipped on the matching reminders of the selected day only |
| CalendarPage.Calendar.DeleteReminder | src/pages/Calendar.jsx:188-194 | the id is removed from the selected day only |
| CalendarPage.AddTouchesOnlySelected | src/pages/Calendar.jsx:174-177 | adding puts the item in front of the selected day's list and leaves every other day as it was |
| CalendarPage.EditTouchesOnlySelected | src/pages/Calendar.jsx:180-194 | toggling and deleting leave every other day's list as it was |
| HomePage.Flip | src/pages/Home.jsx:64 | the todo keeps every field except `done`, which is negated |
| HomePage.TodaysTodos | src/pages/Home.jsx:36 | exactly the todos dated today |
| HomePage.Added | src/pages/Home.jsx:44-61 | blank text leaves the list unchanged; otherwise one undone todo dated today, with the trimmed text, goes in front |
| HomePage.Toggled | src/pages/Home.jsx:63-65 | the length is kept, `done` is flipped exactly on the matching id, and nothing else changes |
| HomePage.Removed | src/pages/Home.jsx:67-69 | exactly the todos without the id remain |
| HomePage.ToggleTwice | src/pages/Home.jsx:63-65 | toggling the same todo twice restores the list |
| HomePage.RemoveUndoesAdd | src/pages/Home.jsx:44-69 | removing a todo just added under a fresh id restores the list |
| HomePage.AddedIsToday | src/pages/Home.jsx:36-61 | today's list after an add is the new todo in front of today's list before it |
| HomePage.TodayProgress | src/pages/Home.jsx:36-39 | the total and done counts are those of today's todos; the percent is done/total × 100 rounded half up (`Lists.RoundedPercent`), at most 100, 0 when there are none and 100 when all are done |
| HomePage.Home.constructor | src/pages/Home.jsx:26-29 | the todos are the stored list or `[]`, and both forms start empty and closed, with the "Reminder" type |
| HomePage.Home.AddTodo | src/pages/Home.jsx:44-61 | blank text changes nothing; otherwise the todo is added, the field is cleared and the form is closed; the reminder form is untouched |
| HomePage.Home.ToggleTodo | src/pages/Home.jsx:63-65 | the todos become the toggled list, and the forms are untouched |
| HomePage.Home.RemoveTodo | src/pages/Home.jsx:67-69 | the todos lose the id, and the forms are untouched |
| HomePage.Home.SubmitReminder | src/pages/Home.jsx:82-92 | blank text changes nothing; otherwise the reminders context adds the trimmed text with the type and today's date, and the form goes back to empty text and "Reminder" |
| HomePage.SubmittedReminder | src/pages/Home.jsx:82-92 | a quick reminder adds exactly one unhandled reminder for today, with the trimmed text and the chosen type |
| DashboardPage.TodoItem | src/pages/Dashboard.jsx:135 | the new todo has the id, the text and `done: false` |
| DashboardPage.ReminderItem | src/pages/Dashboard.jsx:154-160 | the new reminder has the id, the title, the time and `handled: false` |
| DashboardPage.Coalesce | src/pages/Dashboard.jsx:87 | `x ?? y ?? d`: the first of the two that is neither `null` nor `undefined`, else the default |
| DashboardPage.WithField | src/pages/Dashboard.jsx:87 | the field is set from the first present of two fields, or ""; every other field of an object is kept |
| DashboardPage.WithTexts | src/pages/Dashboard.jsx:85-90 | every loaded todo gets `text` from `text ?? title ?? ""` |
| DashboardPage.WithTitles | src/pages/Dashboard.jsx:92-97 | every loaded reminder gets `title` from `title ?? text ?? ""` |
| DashboardPage.WithFieldKeeps | src/pages/Dashboard.jsx:87 | a record whose field already holds a string is unchanged |
| DashboardPage.Migrated | src/pages/Dashboard.jsx:78-83 | a legacy array is written back as `{ [today]: array }`; anything else writes nothing |
| DashboardPage.MigrationStable | src/pages/Dashboard.jsx:70-100 | after the write-back the key holds a map whose days read as the array did, and a second load writes nothing |
| DashboardPage.Persisted | src/pages/Dashboard.jsx:104-118 | the stored map gets today's entry replaced; nothing is written when the stored text does not parse |
| DashboardPage.PersistOnlyToday | src/pages/Dashboard.jsx:104-118 | persisting replaces today's list and leaves every other day as it was |
| DashboardPage.WeekWindow | src/pages/Dashboard.jsx:15-36 | a date is in this week exactly when it falls from this week's Sunday to its Saturday; today always is |
| DashboardPage.WeekSecondsAppend | src/pages/Dashboard.jsx:188-190 | a session outside this week adds nothing to the week's seconds; one inside adds its own |
| DashboardPage.ComputeStats | src/pages/Dashboard.jsx:178-190 | the loops count all and done todos, and all and handled reminders; each percentage is done/all × 100 rounded half up (`Lists.RoundedPercent`), at most 100, and 0 for an empty list; the week's seconds are the specification's sum |
| DashboardPage.Dashboard.constructor | src/pages/Dashboard.jsx:54-67 | the lists and fields start empty |
| DashboardPage.Dashboard.Load | src/pages/Dashboard.jsx:70-101 | both stores are parsed; if either does not parse, both lists are empty and nothing is written; otherwise legacy arrays are written back, and the lists are today's entries with their text and title filled in |
| DashboardPage.Dashboard.PersistTodos | src/pages/Dashboard.jsx:104-110 | the storage becomes the persisted map; a store text that does not parse stops the effect before it writes |
| DashboardPage.Dashboard.PersistReminders | src/pages/Dashboard.jsx:112-118 | the same for the reminders |
| DashboardPage.Dashboard.AddTodo | src/pages/Dashboard.jsx:130-138 | blank text changes nothing; otherwise an undone todo with the trimmed text goes in front and the field is cleared |
| DashboardPage.Dashboard.ToggleTodo | src/pages/Dashboard.jsx:140-142 | `done` is flipped on the matching todos |
| DashboardPage.Dashboard.DeleteTodo | src/pages/Dashboard.jsx:144-146 | the todos lose the id |
| DashboardPage.Dashboard.AddReminder | src/pages/Dashboard.jsx:149-165 | blank text changes nothing; otherwise an unhandled reminder with the trimmed title and the trimmed time, or "—", goes in front, and both fields are cleared |
| DashboardPage.Dashboard.ToggleReminder | src/pages/Dashboard.jsx:167-171 | `handled` is flipped on the matching reminders |
| DashboardPage.Dashboard.DeleteReminder | src/pages/Dashboard.jsx:173-175 | the reminders lose the id |
| DashboardPage.TimeOrDash | src/pages/Dashboard.jsx:157 | a blank time gives "—"; any other time is trimmed |
| DashboardPage.AddThenUndo | src/pages/Dashboard.jsx:130-146 | deleting a todo just added under a fresh id restores the list, and so does toggling it twice |
| Lists.Percent | src/pages/Home.jsx:95 | 0 for no items; otherwise part/whole × 100 rounded half up (`Lists.RoundedPercent`), at most 100 when the part is at most the whole, 100 when they are equal |
| Lists.RoundedPercentUnique | src/pages/Home.jsx:95 | the rounding condition determines the percentage: two values that both meet it are equal |
| WorkHours.ClockMinutes | src/pages/WorkHours.jsx:17-22 | the minutes after midnight of "h:m"; `NaN` exactly when either part is not a number |
| WorkHours.DiffMinutes | src/pages/WorkHours.jsx:14-26 | 0 when a time is missing or not a number; otherwise the forward distance on the clock from start to end, passing midnight when the end is earlier |
| WorkHours.DiffIsForwardDistance | src/pages/WorkHours.jsx:21-25 | the duration is the only value within a day that carries the start onto the end |
| WorkHours.SameTimeLastsNothing | src/pages/WorkHours.jsx:24 | a session that starts and ends at the same time lasts nothing, so it is never added |
| WorkHours.FracCents | src/pages/WorkHours.jsx:85 | one or two decimals give fewer than 100 cents |
| WorkHours.ParseCentsOfNumber | src/pages/WorkHours.jsx:85 | on whole numbers, blank text included, a money field agrees with `Number`, scaled to cents |
| WorkHours.FracText | src/pages/WorkHours.jsx:400 | the cents after the point are written without trailing zeros, in one or two digits |
| WorkHours.FracRoundTrip | src/pages/WorkHours.jsx:400 | reading back the written decimals gives the cents |
| WorkHours.CentsText | src/pages/WorkHours.jsx:107 | `String(amount)` starts and ends with a digit |
| WorkHours.PointRoundTrip | src/pages/WorkHours.jsx:85 | digits, a point and one or two decimals read back as their cents |
| WorkHours.CentsRoundTrip | src/pages/WorkHours.jsx:107 | writing an amount as `String` does and reading it back as `Number` does gives the amount |
| WorkHours.WholeRoundTrip | src/pages/WorkHours.jsx:107 | the round trip for whole amounts |
| WorkHours.CentsWithFracRoundTrip | src/pages/WorkHours.jsx:107 | the round trip for amounts with cents |
| WorkHours.AmountText | src/pages/WorkHours.jsx:107 | a positive stored amount, written out as text, reads back as itself |
| WorkHours.Earnings | src/pages/WorkHours.jsx:133-141 | the earnings are `NaN` exactly when the pay is, and otherwise are minutes × pay ÷ 60 rounded to the nearest cent |
| WorkHours.NewSession | src/pages/WorkHours.jsx:128-148 | no session when the date is empty, a time is missing or the duration is not positive; otherwise the form's fields with the positive duration, the pay and the earnings computed from them |
| WorkHours.NewExpense | src/pages/WorkHours.jsx:161-174 | no expense when the date is empty or the amount is not a positive number; otherwise the form's fields with the amount, and the name "Expense" when it is empty |
| WorkHours.ComputeStats | src/pages/WorkHours.jsx:89-97 | the net is the earnings less the expenses; the totals are not negative, and are 0 for empty lists |
| WorkHours.StatsAfterSession | src/pages/WorkHours.jsx:89-97 | a new session adds its minutes and earnings to the totals and its earnings to the net |
| WorkHours.StatsAfterExpense | src/pages/WorkHours.jsx:89-97 | a new expense adds its amount to the spending and takes it off the net |
| WorkHours.Query | src/pages/WorkHours.jsx:100 | the query is empty exactly when the search is blank |
| WorkHours.VisibleSessions | src/pages/WorkHours.jsx:99-111 | every session for a blank search; otherwise exactly those with a field text containing the query |
| WorkHours.VisibleExpenses | src/pages/WorkHours.jsx:113-125 | every expense for a blank search; otherwise exactly those with a field text containing the query |
| WorkHours.VisibleKeepsOrder | src/pages/WorkHours.jsx:99-125 | the search distributes over concatenation, so it keeps the order |
| WorkHours.FoundByPay | src/pages/WorkHours.jsx:108 | a session is found by its positive pay, typed back as the page writes it |
| WorkHours.Page.constructor | src/pages/WorkHours.jsx:42-72 | each list is the stored array or `[]`; both form dates start on today and the other fields are empty, with the "Food" type |
| WorkHours.Page.AddWorkSession | src/pages/WorkHours.jsx:128-155 | nothing changes unless the form gives a session; then it goes in front, and start, end, pay and notes are cleared while the date stays |
| WorkHours.Page.DeleteSession | src/pages/WorkHours.jsx:157-159 | the sessions lose the id |
| WorkHours.Page.AddExpense | src/pages/WorkHours.jsx:161-182 | nothing changes unless the form gives an expense; then it goes in front, name, place and amount are cleared and the type goes back to "Food", while the date stays |
| WorkHours.Page.DeleteExpense | src/pages/WorkHours.jsx:184-186 | the expenses lose the id |
| WorkHours.DeleteUndoesAddSession | src/pages/WorkHours.jsx:128-159 | deleting a session just added under a fresh id gives back the list |
| WorkHours.DeleteUndoesAddExpense | src/pages/WorkHours.jsx:161-186 | deleting an expense just added under a fresh id gives back the list |
| EmailExport.UserOf | src/utils/emailExport.js:39-42 | a string argument is the identity itself; a record gives its email, username, id or name, else "guest"; never empty |
| EmailExport.ReadTaskFlowData | src/utils/emailExport.js:38-71 | the `pick` loops return, list by list, the value of the first candidate key that holds a non-empty text, parsed with a `[]` fallback |
| EmailExport.SharedGoalsWin | src/utils/emailExport.js:51 | with "taskflow_goals_v1" absent, a list under "taskflow_goals" is read whoever the user is, before the per-user key |
| EmailExport.NothingStored | src/utils/emailExport.js:56-62 | with every key empty, all five lists are `[]` |
| EmailExport.AmountOf | src/utils/emailExport.js:93-95 | a missing or falsy amount adds 0, a number adds itself |
| EmailExport.Currency | src/utils/emailExport.js:12-16 | a falsy value prints "$0.00"; a number prints as US dollars |
| EmailExport.Numbered | src/utils/emailExport.js:127-131 | one line per item, in order, line i reading "i+1. " and the item's text |
| EmailExport.PushNumbered | src/utils/emailExport.js:154-163 | the forEach loop appends exactly the numbered lines to the lines so far |
| EmailExport.Section | src/utils/emailExport.js:115-135 | a section keeps its header lines first and ends with a blank line; with items it adds a blank, the title and one line per item |
| EmailExport.PushSection | src/utils/emailExport.js:172-191 | pushing a section line by line appends exactly the section's lines |
| EmailExport.ExpensePreview | src/utils/emailExport.js:123 | `slice(0, 5)`: a prefix of at most five expenses, all of them when there are at most five |
| EmailExport.ExpensePreviewBound | src/utils/emailExport.js:123-131 | exactly min(5, n) expenses are listed, the first ones |
| EmailExport.WithDue | src/utils/emailExport.js:146-147 | the goal is kept whole and its due date is truthy exactly when `targetDate` or `dueDate` is |
| EmailExport.UpcomingFacts | src/utils/emailExport.js:145-149 | at most eight goals, each with a due date and each from the list, in ascending order of the due text; all of them when at most eight have one |
| EmailExport.TargetOfAsWritten | src/utils/emailExport.js:158-161 | the target part as written is empty or starts with "•", its separating blank trimmed away |
| EmailExport.TargetOf | src/utils/emailExport.js:158-161 | the corrected target part is empty or starts with " • Target:" |
| EmailExport.PushExpenses | src/utils/emailExport.js:115-135 | the expense lines are appended exactly when the box is ticked |
| EmailExport.PushGoals | src/utils/emailExport.js:140-167 | the goal lines, built with the corrected target part of the fourth finding, are appended exactly when the box is ticked |
| EmailExport.PushTodos | src/utils/emailExport.js:172-191 | the todo lines are appended exactly when the box is ticked |
| EmailExport.PushReminders | src/utils/emailExport.js:196-222 | the reminder lines are appended exactly when the box is ticked |
| EmailExport.BuildEmailReport | src/utils/emailExport.js:73-226 | the method pushing line by line yields the report the section functions describe, joined with newlines (goal lines as corrected by the fourth finding) |
| EmailExport.JoinLast | src/utils/emailExport.js:225 | joining with newlines puts a newline and the last line at the end |
| EmailExport.JoinFrame | src/utils/emailExport.js:225 | the joined text ends with a newline and the last line |
| EmailExport.AssembleFrame | src/utils/emailExport.js:83-224 | whatever is ticked, the first opening line stays first and "— End of report —" is last |
| EmailExport.ReportFrame | src/utils/emailExport.js:83-224 | every report has at least six lines, opens with "TaskFlow Export Report" and closes with the end line |
| EmailExport.WorkSectionIff | src/utils/emailExport.js:92-110 | the work section is present exactly when hours or earnings are ticked, and then starts with its heading |
| EmailExport.WorkLinesAsSelected | src/utils/emailExport.js:102-107 | the hours line is there exactly when hours are ticked, the earnings line exactly when earnings are |
| EmailExport.TodoCounts | src/utils/emailExport.js:173-181 | completed plus pending is the number of todos; at most ten pending todos are listed, none of them done |
| EmailExport.ReminderCounts | src/utils/emailExport.js:197-208 | the handled count is at most the total; today's list holds at most ten reminders, all dated today |
| ExportText.Money | src/utils/emailExport.js:12-16 | a dollar sign, the digits grouped by commas and ".00", with a leading minus for negative amounts |
| ExportText.GroupedRoundTrip | src/utils/emailExport.js:15 | grouping only inserts commas: removing them gives back the digits |
| ExportText.UngroupedComma | src/utils/emailExport.js:15 | removing commas drops the separator between two pieces |
| ExportText.UngroupedAppend | src/utils/emailExport.js:15 | comma removal distributes over concatenation |
| ExportText.UngroupedPlain | src/utils/emailExport.js:15 | a text without commas is unchanged |
| ExportText.RawTarget | src/utils/emailExport.js:160 | the untrimmed target part starts with " • Target: " |
| ExportText.TargetAsWrittenGlued | src/utils/emailExport.js:158-162 | as written, the trimmed part starts with "•" itself, so it is glued to the title |
| ExportText.TargetAsWrittenDrops | src/utils/emailExport.js:158-162 | when the unit ends in a non-blank, the trim removes exactly the leading blank |
| ExportText.TrimDropsSeparator | src/utils/emailExport.js:158-162 | the goal "Run" with target 5 km reads "Run• Target: 5 km" as written |
| ExportText.TargetKeepsSeparator | src/utils/emailExport.js:158-162 | corrected, the part keeps its " • Target:" start, and equals the untrimmed text when the unit ends in a non-blank |
| EmailExportModal.Pick | src/components/EmailExportModal.jsx:29-44 | an array override wins; otherwise the stored value unless it is null; never null |
| EmailExportModal.NoOverrideIsStored | src/components/EmailExportModal.jsx:26-46 | without an override the dialog uses exactly the stored data |
| EmailExportModal.SafeNeverNull | src/utils/emailExport.js:3-10 | what `pick` returns is never null: a stored null gives `[]` |
| EmailExportModal.OverrideOneList | src/components/EmailExportModal.jsx:29-31 | an array override replaces only its own list; a non-array override is ignored |
| EmailExportModal.FlippedFacts | src/components/EmailExportModal.jsx:50-52 | toggling flips the one box, leaves the other five, and toggling twice restores the selection |
| EmailExportModal.DisplayName | src/components/EmailExportModal.jsx:62 | name, else username, else email, else "guest"; never empty |
| EmailExportModal.MailFor | src/components/EmailExportModal.jsx:54-72 | no mail exactly when the trimmed address is empty; otherwise it goes to the trimmed address with subject "TaskFlow Export - name - date" |
| EmailExportModal.Dialog.constructor | src/components/EmailExportModal.jsx:15-23 | an empty address and only work hours and earnings ticked |
| EmailExportModal.Dialog.SetEmail | src/components/EmailExportModal.jsx:15 | the address becomes the typed text |
| EmailExportModal.Dialog.Toggle | src/components/EmailExportModal.jsx:50-52 | the selection becomes the flipped selection |
| EmailExportModal.Dialog.Send | src/components/EmailExportModal.jsx:54-72 | the mail for the current address, with the report of the ticked sections over the merged data as its body |
| Analytics.ToBool | src/pages/Analytics.jsx:74-83 | booleans as they are, a number only when it is 1, null, arrays and objects by truthiness; true only for truthy values |
| Analytics.ToBoolYes | src/pages/Analytics.jsx:78-81 | the string "Yes " reads true: lower-cased and trimmed it is "yes" |
| Analytics.ToBoolTrue | src/pages/Analytics.jsx:78-81 | the string "TRUE" reads true |
| Analytics.ToBoolNo | src/pages/Analytics.jsx:78-81 | the strings "no" and "2" read false although they are truthy |
| Analytics.WithDate | src/pages/Analytics.jsx:91 | the dated item is always an object |
| Analytics.WithDateFields | src/pages/Analytics.jsx:91 | every field but `date` is kept; `date` is the item's own when truthy and the day otherwise |
| Analytics.Dated | src/pages/Analytics.jsx:98 | one dated item per item, in order |
| Analytics.DatedSnoc | src/pages/Analytics.jsx:90-92 | dating one more item appends its dated form |
| Analytics.FlatSnoc | src/pages/Analytics.jsx:88-93 | one more map entry appends that entry's dated items, nothing for a non-array entry |
| Analytics.PushDated | src/pages/Analytics.jsx:90-92 | the inner loop appends exactly the day's dated items |
| Analytics.FlattenPerDayMap | src/pages/Analytics.jsx:85-95 | the loop over the entries yields every array's items, dated by their day, in order; `[]` for a non-object or an array |
| Analytics.FlatFacts | src/pages/Analytics.jsx:85-95 | flattening keeps the number of items of every array, and each result is an object |
| Analytics.ReadDayStoreFacts | src/pages/Analytics.jsx:97-100 | every item read is an object; an array keeps its length, a map its item count, anything else reads as nothing |
| Analytics.LegacyArrayIsToday | src/pages/Analytics.jsx:97-100 | a flat array reads exactly as a per-day map holding it under today |
| Analytics.KeyTodos | src/pages/Analytics.jsx:173-178 | a key with nothing stored adds no todos |
| Analytics.MergeTodoKeys | src/pages/Analytics.jsx:171-179 | the loop over the todo keys concatenates what each key adds, in key order |
| Analytics.MergedSkipsAbsent | src/pages/Analytics.jsx:172-176 | a key holding nothing leaves the merge unchanged |
| Analytics.DoneOf | src/pages/Analytics.jsx:191 | the todo is done only when the first of done, completed, isDone, checked that is not null is truthy |
| Analytics.TextOf | src/pages/Analytics.jsx:184-189 | `text` when it is a string; the empty text when neither `text` nor `title` is there |
| Analytics.KeyOf | src/pages/Analytics.jsx:192 | the id whenever the todo has one that is not null |
| Analytics.Fresh | src/pages/Analytics.jsx:195 | the first record for a key carries the normalised text and done flag |
| Analytics.Merge | src/pages/Analytics.jsx:198 | a repeated key keeps the later fields, the normalised text, and is done when either record is |
| Analytics.FindKey | src/pages/Analytics.jsx:194-199 | the index of the key's entry in insertion order, or the length when no entry has it |
| Analytics.AnyByIff | src/pages/Analytics.jsx:198 | "some item with this key hits" holds exactly when such an item exists |
| Analytics.NewKeyMisses | src/pages/Analytics.jsx:194-195 | a key with no entry yet is the key of no item seen so far |
| Analytics.UpsertUnique | src/pages/Analytics.jsx:194-199 | `set` keeps the map's keys distinct |
| Analytics.UpsertCovers | src/pages/Analytics.jsx:194-199 | after `set` every key seen so far has an entry |
| Analytics.UpsertFromItems | src/pages/Analytics.jsx:194-199 | after `set` every entry's key is the key of an item seen |
| Analytics.UpsertFlags | src/pages/Analytics.jsx:194-199 | after `set` an entry is done exactly when some item with its key is done |
| Analytics.UpsertKeeps | src/pages/Analytics.jsx:194-199 | one `set` keeps unique, covering, done-wins entries |
| Analytics.DedupeKeeps | src/pages/Analytics.jsx:182-200 | the whole loop yields unique, covering, done-wins entries |
| Analytics.Values | src/pages/Analytics.jsx:202 | `Array.from(byKey.values())`: the entries' values in insertion order |
| Analytics.Dedupe | src/pages/Analytics.jsx:182-202 | the loop over the merged todos yields the values of the de-duplicated map |
| Analytics.DedupedFacts | src/pages/Analytics.jsx:181-202 | one record per key that occurs, and each is done exactly when some todo with its key is done |
| Analytics.TodoStats | src/pages/Analytics.jsx:217-222 | the count, the finished count (never more), and the percentage finished/count × 100 rounded half up (`Lists.RoundedPercent`): at most 100, 0 for no todos and 100 when all are finished |
| Analytics.Clamp | src/pages/Analytics.jsx:64-66 | the value when within the bounds, else the nearer bound |
| Analytics.Round | src/pages/Analytics.jsx:265 | `Math.round`: the nearest integer, halves going up |
| Analytics.Progress | src/pages/Analytics.jsx:250-263 | each goal contributes a progress between 0 and 100 |
| Analytics.ProgressSum | src/pages/Analytics.jsx:247-263 | the summed progress is between 0 and 100 times the number of goals |
| Analytics.MeanBounds | src/pages/Analytics.jsx:265 | the mean of values between 0 and 100 is between 0 and 100 |
| Analytics.RoundBounds | src/pages/Analytics.jsx:265 | rounding a value between 0 and 100 stays between 0 and 100 |
| Analytics.GoalStats | src/pages/Analytics.jsx:241-268 | active plus finished is the number of goals; the average is the rounded mean progress, 0 without goals, always between 0 and 100 |
| Analytics.SumProgress | src/pages/Analytics.jsx:247-264 | the loop's sum is the progress of all goals added up in order |
| Analytics.MeanPercent | src/pages/Analytics.jsx:266 | 0 without goals, else the rounded mean; a mean of values between 0 and 100 rounds to a value between 0 and 100 |
| Analytics.JsDate | src/pages/Analytics.jsx:37 | `new Date(y, m - 1, d)`: years 0-99 are 1900-1999 and out-of-range months and days roll over into a valid date |
| Analytics.ParseDate | src/pages/Analytics.jsx:31-48 | a falsy value is no date; every date read is a valid calendar date |
| Analytics.Week | src/pages/Analytics.jsx:334 | days 1-7 are week 1, and so on, days 29-31 joining the fourth week |
| Analytics.WeekOf | src/pages/Analytics.jsx:331-334 | a session has a week exactly when its date falls in the current month |
| Analytics.Buckets | src/pages/Analytics.jsx:328-338 | always four totals, one per week |
| Analytics.BucketsAddUp | src/pages/Analytics.jsx:328-338 | the four totals together are the sum of the slotted amounts |
| Analytics.Weeks | src/pages/Analytics.jsx:327-341 | four weekly totals |
| Analytics.WeeklyEarnings | src/pages/Analytics.jsx:327-341 | the loop adding into the four-slot array yields the weekly totals |
| Analytics.WeeksAddUp | src/pages/Analytics.jsx:327-341 | the four weeks add up to the earnings of the sessions of the month |
| Analytics.OtherMonthsIgnored | src/pages/Analytics.jsx:332 | a session outside the month changes no week |
| Analytics.Counts | src/pages/Analytics.jsx:346-358 | three counters, one per category |
| Analytics.CountsMatch | src/pages/Analytics.jsx:349-358 | each counter is the number of goals of its category with that done flag |
| Analytics.CountsCoverAll | src/pages/Analytics.jsx:349-358 | the six counters add up to the number of goals |
| Analytics.TallyBy | src/pages/Analytics.jsx:346-358 | the counting loop yields the active and the finished counters |
| Analytics.GoalsByCategory | src/pages/Analytics.jsx:344-361 | the active and finished counts per category, together all goals |
| Analytics.Load | src/pages/Analytics.jsx:159-214 | the todos of all keys merged and de-duplicated; the sessions and goals of the first key holding them, as arrays |
| ChatIntents.DetectTimeframe | src/components/ChatBotWidget.jsx:112-118 | "total", "all time", "overall" or "lifetime" first, then "month", then "week", otherwise today, each exactly when the earlier tests fail |
| ChatIntents.RouteLabel | src/components/ChatBotWidget.jsx:978 | "home" for the dashboard, else the page's path without its slash |
| ChatIntents.HasWordContains | src/components/ChatBotWidget.jsx:170-182 | a keyword standing as a word is also contained in the text |
| ChatIntents.MatchRoute | src/components/ChatBotWidget.jsx:167-193 | each page exactly when its keyword test passes and the tests of every page before it (home, calendar, notes, work hours, goals, habits, focus, analytics) fail; no page exactly when all eight fail on the normalised text |
| ChatIntents.PlainWordsNormal | src/components/ChatBotWidget.jsx:54-56 | lower-case words separated by single blanks are already normalised |
| ChatIntents.Absent | src/components/ChatBotWidget.jsx:167-193 | a keyword with a character the text lacks matches neither as a word nor as a substring |
| ChatIntents.AbsentPair | src/components/ChatBotWidget.jsx:167-193 | a keyword with two neighbouring characters the text never has side by side does not match |
| ChatIntents.OpenPhraseRoutes | src/components/ChatBotWidget.jsx:124 | every "open <page>" phrase the help text suggests opens that page |
| ChatIntents.OpensHome | src/components/ChatBotWidget.jsx:170 | "open home" opens the dashboard |
| ChatIntents.OpensCalendarPage | src/components/ChatBotWidget.jsx:171 | "open calendar" opens the calendar |
| ChatIntents.OpensNotesPage | src/components/ChatBotWidget.jsx:172 | "open notes" opens the notes |
| ChatIntents.OpensWorkHoursPage | src/components/ChatBotWidget.jsx:173 | "open work hours" opens the work-hours page |
| ChatIntents.OpensGoalsPage | src/components/ChatBotWidget.jsx:174 | "open goals" opens the goals |
| ChatIntents.OpensHabitsPage | src/components/ChatBotWidget.jsx:177 | "open habits" opens the habits |
| ChatIntents.OpensFocusPage | src/components/ChatBotWidget.jsx:180-188 | "open focus" opens the focus page |
| ChatIntents.OpensAnalyticsPage | src/components/ChatBotWidget.jsx:190 | "open analytics" opens the analytics page, no earlier test catching it |
| ChatParse.FormatClock | src/components/ChatBotWidget.jsx:313 | "HH:MM", the two digits of the hour, a colon and the two digits of the minute |
| ChatParse.Match24At | src/components/ChatBotWidget.jsx:312 | a match of the 24-hour pattern starts on a digit at a word boundary, ends at one, and reads a valid time |
| ChatParse.To24 | src/components/ChatBotWidget.jsx:321-322 | the hour is below 24, keeps its value modulo 12, and is 12 or more exactly for pm |
| ChatParse.Match12At | src/components/ChatBotWidget.jsx:316 | a match of the am/pm pattern starts on a digit at a word boundary, ends at one, and reads a valid time |
| ChatParse.FindFrom | src/components/ChatBotWidget.jsx:312 | `match` finds the leftmost position where the pattern matches, and none before it |
| ChatParse.Find | src/components/ChatBotWidget.jsx:316 | the leftmost match in the whole text, and no match before it |
| ChatParse.ParseTime | src/components/ChatBotWidget.jsx:308-327 | on the trimmed, lowered text: the clock of the leftmost 24-hour match when there is one, else that of the leftmost am/pm match, nothing exactly when neither pattern matches; always a valid time |
| ChatParse.TimeToken | src/components/ChatBotWidget.jsx:330-340 | the text as written of the leftmost 24-hour match, else of the leftmost am/pm match; nothing exactly when neither matches; the token occurs in the text and starts with a digit |
| ChatParse.ChooseClock | src/components/ChatBotWidget.jsx:308-327 | the corrected choice: found exactly when either pattern matches, at the 24-hour match's position, read as am/pm when one follows |
| ChatParse.ParseTimeFixed | src/components/ChatBotWidget.jsx:308-327 | the corrected reading finds a time exactly when the original does, and always a valid one |
| ChatParse.TimeTokenFixed | src/components/ChatBotWidget.jsx:330-340 | the corrected token occurs in the text and is found exactly when the original one is |
| ChatParse.FormattedClockMatch24 | src/components/ChatBotWidget.jsx:312 | the 24-hour pattern matches "HH:MM" whole and reads back the time |
| ChatParse.FormattedClockMatches | src/components/ChatBotWidget.jsx:309-312 | "HH:MM" is its own trimmed, lowered form and matches at position 0 |
| ChatParse.FormattedClockNoAmPm | src/components/ChatBotWidget.jsx:316 | no am/pm match starts an "HH:MM" text |
| ChatParse.ParseFormattedClock | src/components/ChatBotWidget.jsx:308-327 | a time written as "HH:MM" is read back as itself |
| ChatParse.ParseFormattedClockFixed | src/components/ChatBotWidget.jsx:308-327 | the corrected reading also reads "HH:MM" back as itself |
| ChatParse.FivePm | src/components/ChatBotWidget.jsx:315-323 | "5pm" is 17:00 |
| ChatParse.TwelveAm | src/components/ChatBotWidget.jsx:322 | "12am" is midnight |
| ChatParse.PmAfterColonIgnored | src/components/ChatBotWidget.jsx:311-313 | as written "5:30 pm" reads 05:30; corrected it reads 17:30 |
| ChatParse.MatchesOfClock12Text | src/components/ChatBotWidget.jsx:312-316 | on "h:mm am/pm" text the 24-hour pattern matches at 0 and the am/pm pattern reads the whole time |
| ChatParse.ParseFormattedClock12 | src/components/ChatBotWidget.jsx:308-327 | every time written as "h:mm am" or "h:mm pm" is read back as itself by the corrected reading |
| ChatParse.ExtractIsoDate | src/components/ChatBotWidget.jsx:342-353 | a date literal when the lowered text holds one (exactly the leftmost, by `ChatParse.ExtractIsoDateLeftmost`); else tomorrow for "tomorrow", today for "today"; nothing exactly when none of these is there |
| ChatParse.IsoLiteralOfFormatted | src/components/ChatBotWidget.jsx:345-346 | a date of 2000-2099 written out is found as its own literal |
| ChatParse.TomorrowIsNextDay | src/components/ChatBotWidget.jsx:349 | without a literal, "tomorrow" gives the day after today |
| ChatParse.SplitIsoLiteral | src/components/ChatBotWidget.jsx:91 | a date literal splits at its dashes into year, month and day |
| ChatParse.IsoLiteralPartsPositive | src/components/ChatBotWidget.jsx:91-92 | the year, month and day of a literal the pattern accepts are positive numbers |
| ChatParse.IsoLiteralParses | src/components/ChatBotWidget.jsx:90-96 | every literal the date pattern accepts is a date `isoToDate` reads |
| ChatParse.DigitsValuePositive | src/components/ChatBotWidget.jsx:91-92 | digits with a non-zero digit have a positive value |
| ChatParse.PositiveNumber | src/components/ChatBotWidget.jsx:91-92 | a digit string with a non-zero digit reads as a positive number |
| ChatParse.DigitPairPositive | src/components/ChatBotWidget.jsx:91-92 | two digits, not both zero, read as a positive number |
| ChatParse.FourDigitYear | src/components/ChatBotWidget.jsx:345 | a year of 2000-2099 is written as "20" and two digits |
| ChatParse.ReplaceFrom | src/components/ChatBotWidget.jsx:360 | replacing every occurrence of a token by one blank never lengthens the text |
| ChatParse.ReplaceAll | src/components/ChatBotWidget.jsx:360 | the replacement as written never lengthens the text |
| ChatParse.ReplaceWords | src/components/ChatBotWidget.jsx:360 | the whole-word replacement never lengthens the text |
| ChatParse.ReplaceWithoutHits | src/components/ChatBotWidget.jsx:360 | where the token never hits, the text comes through unchanged |
| ChatParse.OnlyAtInWater | src/components/ChatBotWidget.jsx:899 | in "water plants" the command word "at" occurs only inside "water" |
| ChatParse.CommandWordInsideWord | src/components/ChatBotWidget.jsx:355-364 | as written, cutting out "at" turns "water plants" into "w er plants" |
| ChatParse.CommandWordAsWord | src/components/ChatBotWidget.jsx:355-364 | cutting out whole words leaves "water plants" alone |
| ChatParse.RemoveAbsentTokens | src/components/ChatBotWidget.jsx:357-361 | a text in which no token stands as a word is left as it is |
| ChatParse.StripTokensForText | src/components/ChatBotWidget.jsx:355-364 | the loop cuts each token where it stands as a word (the correction of the second finding), then collapses white space and trims; the result has no blank run and no blank at either end |
| ChatParse.StripWithoutTokens | src/components/ChatBotWidget.jsx:355-364 | without tokens in the text, stripping only tidies the white space |
| ChatParse.SquishOfTidy | src/components/ChatBotWidget.jsx:362 | collapsing and trimming a tidy text changes nothing |
| ChatParse.NoteBody | src/components/ChatBotWidget.jsx:502-504 | the body has no blank at either end |
| ChatParse.PipeNote | src/components/ChatBotWidget.jsx:508-513 | title, a bar and content: a non-empty title and a trimmed content, neither containing a bar |
| ChatParse.ColonNote | src/components/ChatBotWidget.jsx:515-520 | "title: content": a non-empty title and a trimmed content |
| ChatParse.BareNote | src/components/ChatBotWidget.jsx:522-524 | the whole body is the content; the title is the body when at most 28 characters, else its first 28 and an ellipsis |
| ChatParse.NoteOf | src/components/ChatBotWidget.jsx:506-524 | an empty body gives "Untitled"; a body with a bar gives title and content without one; a body with no separator is the content; the title is never empty |
| ChatParse.ParseNote | src/components/ChatBotWidget.jsx:501-525 | `parseNote`: the facts of `NoteOf` for the text without its command words |
| ChatParse.DropCommandWord | src/components/ChatBotWidget.jsx:504 | a command word, one blank and a text starting with a non-blank: exactly the text remains |
| ChatParse.CreateNoteBody | src/components/ChatBotWidget.jsx:504 | the body of "create note text" is the text |
| ChatParse.AddNoteBody | src/components/ChatBotWidget.jsx:504 | the body of "add note text" is the text |
| ChatParse.PipeNoteOf | src/components/ChatBotWidget.jsx:508-513 | t, a bar and c gives back title t and content c |
| ChatParse.ColonNoteOf | src/components/ChatBotWidget.jsx:515-520 | "t: c" gives back title t and content c when t has no colon |
| ChatParse.NotePipeRoundTrip | src/components/ChatBotWidget.jsx:501-513 | "create note" with t, a bar and c gives back the title and the content |
| ChatParse.NoteColonRoundTrip | src/components/ChatBotWidget.jsx:501-520 | "add note t: c" gives back the title and the content |
| ChatParse.NoteBareRoundTrip | src/components/ChatBotWidget.jsx:501-524 | a text without separator or command words is its own content, titled by its first 28 characters |
| ChatBot.DisplayName | src/components/ChatBotWidget.jsx:535-538 | the trimmed name, or "there"; never empty and trimmed |
| ChatBot.HistoryKey | src/components/ChatBotWidget.jsx:540-543 | the chat key, an underscore and the user |
| ChatBot.HistoryKeysDiffer | src/components/ChatBotWidget.jsx:540-543 | two different named users never share a history |
| ChatBot.FriendlyKind | src/components/ChatBotWidget.jsx:823-846 | the first small-talk test that passes, in the source's order; nothing exactly when none does |
| ChatBot.RangeStart | src/components/ChatBotWidget.jsx:74-88 | today for today; the Monday of this week, at most six days back; the first of this month; 1970-01-01 for total |
| ChatBot.RangeFor | src/components/ChatBotWidget.jsx:603-609 | the range ends today and starts at the time frame's first day, "1970-01-01" for total |
| ChatBot.RangeHoldsToday | src/components/ChatBotWidget.jsx:98-104 | today lies in every range; a date lies in today's range exactly when it is today |
| ChatBot.SumField | src/components/ChatBotWidget.jsx:620-622 | the sum is a number exactly when every item's field is |
| ChatBot.SumFieldAppend | src/components/ChatBotWidget.jsx:620-622 | summing a list is summing its parts |
| ChatBot.Dated | src/components/ChatBotWidget.jsx:617-618 | exactly the items whose date lies in the range, each one of the items |
| ChatBot.Summarize | src/components/ChatBotWidget.jsx:611-626 | the stored sessions and expenses dated in the range and the sums of their hours, earnings and amounts |
| ChatBot.NetOf | src/components/ChatBotWidget.jsx:623 | earnings less expenses, a number exactly when both are |
| ChatBot.AnswerFor | src/components/ChatBotWidget.jsx:848-887 | help exactly for help words, then small talk; today's plan, the notes summary, the focus plan and weekly productivity each exactly when its test passes and no earlier one does; net, expenses, earnings and work hours likewise, for the text's time frame and the stored data; the menu exactly when nothing matches |
| ChatBot.OwnFields | src/components/ChatBotWidget.jsx:421-427 | copying a per-day object keeps each day's list |
| ChatBot.HomeTodosAsWritten | src/components/ChatBotWidget.jsx:388-403 | as written, the new todo goes in front of a stored array, or alone when the key holds the home page's per-day object |
| ChatBot.HomeTodoAsWrittenLosesDays | src/components/ChatBotWidget.jsx:388-403 | as written, the home page then reads only the new todo for today and nothing for any other day |
| ChatBot.HomeStoreAfter | src/components/ChatBotWidget.jsx:421-439 | today's list gains the item in front; every other day's list is unchanged |
| ChatBot.KeysDistinct | src/components/ChatBotWidget.jsx:12-21 | the calendar and home reminder keys differ, and so do the tasks key and the home todo key |
| ChatBot.CalendarWrite | src/components/ChatBotWidget.jsx:451-463 | the date's list gains the item in front; other dates are unchanged |
| ChatBot.HomeWrite | src/components/ChatBotWidget.jsx:421-441 | today's list gains the item in front; other days are unchanged |
| ChatBot.HomeDayFrame | src/components/ChatBotWidget.jsx:421 | a home day's list depends only on the home key |
| ChatBot.CalendarDayFrame | src/components/ChatBotWidget.jsx:451-452 | a calendar day's list depends only on the calendar key |
| ChatBot.MigrateObjectItems | src/components/ChatBotWidget.jsx:425-426 | a stored object is used as it is |
| ChatBot.ReminderDate | src/components/ChatBotWidget.jsx:896 | a date in the text, else the date selected on the calendar, else today; never empty |
| ChatBot.IsoLiteralNonEmpty | src/components/ChatBotWidget.jsx:342-353 | a date found in the text is never empty |
| ChatBot.ReminderTime | src/components/ChatBotWidget.jsx:897 | the text's time as "HH:MM" by the corrected reading of the third finding, else 09:00 |
| ChatBot.ReminderTokens | src/components/ChatBotWidget.jsx:899-903 | the reminder command words, then the date and the corrected time token (third finding) as written |
| ChatBot.TodoDate | src/components/ChatBotWidget.jsx:941-942 | a date in the text, else tomorrow when it says so, else today |
| ChatBot.Session.constructor | src/components/ChatBotWidget.jsx:549-575 | the saved history when it holds a message, else the welcome message; the calendar default is today |
| ChatBot.Session.SelectDate | src/components/ChatBotWidget.jsx:551-561 | a date-shaped text becomes the calendar default; anything else changes nothing |
| ChatBot.Session.SaveHomeReminder | src/components/ChatBotWidget.jsx:405-443 | blank text writes nothing; otherwise today's home reminders gain the reminder, other days are kept, only that key changes and the calendar is untouched |
| ChatBot.Session.SaveHomeTodo | src/components/ChatBotWidget.jsx:388-403 | blank text writes nothing; otherwise today's home todos gain the todo, other days and keys unchanged, the stored tasks untouched (the per-day write of the first finding's correction; as written see `ChatBot.HomeTodosAsWritten`) |
| ChatBot.Session.SaveCalendarReminder | src/components/ChatBotWidget.jsx:445-474 | blank text fails and writes nothing; otherwise the date's list gains the reminder (today and 09:00 by default), and a reminder for today also goes to the home page |
| ChatBot.Session.SaveTodo | src/components/ChatBotWidget.jsx:476-499 | blank text fails and writes nothing; otherwise the stored tasks gains the todo in front, and a todo for today also goes to the home page's per-day store (first finding's correction) |
| ChatBot.Session.WriteHome | src/components/ChatBotWidget.jsx:421-441 | today's list under the home key gains the item in front; other days, other keys, the calendar and the stored tasks are kept |
| ChatBot.Session.WriteCalendarReminder | src/components/ChatBotWidget.jsx:451-463 | the date's list gains the item in front; other dates and every other key are kept, home reminders untouched |
| ChatBot.Session.WriteTodo | src/components/ChatBotWidget.jsx:481-490 | the stored tasks gains the item in front; every other key is kept, home todos untouched |
| ChatBot.Session.Push | src/components/ChatBotWidget.jsx:587-589 | one message at the end; only the history changes |
| ChatBot.Session.CreateReminder | src/components/ChatBotWidget.jsx:893-912 | the reminder gets the command's date, the corrected time and the cleaned, tidy, non-empty text |
| ChatBot.Session.CreateTodo | src/components/ChatBotWidget.jsx:940-957 | the todo gets the command's date and its body without the date words, cut as whole words |
| ChatBot.Session.TryHandleCreateCommands | src/components/ChatBotWidget.jsx:889-961 | handled exactly for a create command; a reminder command always goes to the reminder; unhandled text changes nothing |
| ChatBot.Session.CreateNote | src/components/ChatBotWidget.jsx:916-927 | the parsed note is added to the notes and the reply names its title |
| ChatBot.Session.TryNoteOrTodo | src/components/ChatBotWidget.jsx:916-960 | handled exactly for a note or todo command; a note command adds the note and touches no storage; unhandled text changes nothing |
| ChatBot.Session.TryTodo | src/components/ChatBotWidget.jsx:940-960 | handled exactly for a todo command; a created todo has the command's date and its body without date words; unhandled text changes nothing |
| ChatBot.Session.Respond | src/components/ChatBotWidget.jsx:970-984 | a create command's result, else "Opening <page>" for a page the text names, else the answer |
| ChatBot.Session.Send | src/components/ChatBotWidget.jsx:963-985 | blank input changes nothing; otherwise the user's trimmed message and exactly one bot reply are appended |
| ChatBot.Session.Exchange | src/components/ChatBotWidget.jsx:967-984 | the user's message then exactly one bot reply are appended; text that is no create command changes no storage and gets "Opening <page>" or the answer; a create command never gets "Opening" |
| ChatBot.Session.ClearChat | src/components/ChatBotWidget.jsx:987-996 | only the welcome message remains; only the history changes |
| ChatParse.ExtractIsoDateLeftmost | src/components/ChatBotWidget.jsx:342-346 | when the lowered text holds a date literal, the date taken is exactly the ten characters at the leftmost match |
| ChatParse.NoColonNoClock24 | src/components/ChatBotWidget.jsx:311 | text without a colon holds no 24-hour time |
| UserStorage.UserKey | src/app/storage.js:3-6 | the key is "taskflow:" followed by the e-mail, else the id, else the user name, else "guest" |
| UserStorage.LoadTodos | src/app/storage.js:16-19 | the stored todo list, or `[]` when the key is absent, unreadable or holds `null` |
| UserStorage.SaveTodos | src/app/storage.js:21-24 | the todo key is written and no other key appears |
| UserStorage.LoadReminders | src/app/storage.js:26-29 | the stored reminder list, or `[]` when absent, unreadable or `null` |
| UserStorage.SaveReminders | src/app/storage.js:31-34 | the reminder key is written and no other key appears |
| UserStorage.TodoAndReminderKeysDiffer | src/app/storage.js:17-33 | a todo key never equals a reminder key, for any two users |
| UserStorage.LoadAfterSave | src/app/storage.js:16-34 | loading after saving gives back the saved (non-null) list |
| UserStorage.SavesAreIndependent | src/app/storage.js:16-34 | saving one list never changes what the other list loads, for any user |
| Auth.Words | src/app/AuthContext.jsx:19-22 | `split(" ").filter(Boolean)`: every piece is non-empty |
| Auth.FirstLetters | src/app/AuthContext.jsx:24 | one letter per word: the upper-cased first character of each, in order |
| Auth.InitialsFrom | src/app/AuthContext.jsx:18-26 | the upper-cased first letters of the first two words of the trimmed name, one per word (one or two); "AR" for a name without words |
| Auth.FindFirst | src/app/AuthContext.jsx:88 | `find`: nothing exactly when no element passes; otherwise the first element that passes |
| Auth.FindFront | src/app/AuthContext.jsx:137 | an account put in front that passes is the one found, whatever follows |
| Auth.FirstFilled | src/app/AuthContext.jsx:99-102 | the first candidate that is not blank once trimmed, else the last fallback |
| Auth.SessionAccount | src/app/AuthContext.jsx:84-94 | the account found is one of the users; a session id that matches an account finds it; with no id, or one no account has, the first account whose name matches the session's username in any case, and nothing without a username |
| Auth.UserOf | src/app/AuthContext.jsx:81-111 | `null` exactly without a session; otherwise the name shown is the trimmed full name, else the trimmed username, else the session's username, else "User"; the initials are those of that name; the id is the account's or `null`; the username is the account's, else the session's |
| Auth.UnknownAccountShown | src/app/AuthContext.jsx:96-106 | with no account found, the id is `null` and the name shown is the session's username, or "User" |
| Auth.RegisterError | src/app/AuthContext.jsx:119-127 | the three checks in their order: "Username is required.", then "Password must be at least 4 characters.", then "User already exists. Please login." for a name taken in any case |
| Auth.NewAccount | src/app/AuthContext.jsx:129-135 | the account has the trimmed name, the password and the id, and the trimmed full name or, when that is blank, the name |
| Auth.LoginCheck | src/app/AuthContext.jsx:153-159 | "User not found. Please register." exactly when no account has the trimmed name in any case; passed exactly when the first such account's password is the one typed, with that account; otherwise "Wrong password." |
| Auth.RegisteredFacts | src/app/AuthContext.jsx:118-147 | a refused registration changes nothing and names the first failed check; an accepted one adds exactly one account, in front, and signs it in |
| Auth.LoggedIn | src/app/AuthContext.jsx:153-167 | the accounts never change; a failure changes nothing, and happens exactly when the check fails |
| Auth.Provider.constructor | src/app/AuthContext.jsx:57-59 | the state is what storage holds, and storage agrees with it |
| Auth.Provider.Register | src/app/AuthContext.jsx:118-147 | the message and the new state are those of the registration specification; storage stays in step with the state |
| Auth.Provider.Login | src/app/AuthContext.jsx:153-167 | the message and the new state are those of the login specification; storage stays in step with the state |
| Auth.Provider.Logout | src/app/AuthContext.jsx:169-172 | the session is removed, and no user is shown |
| Auth.RegisterThenLogin | src/app/AuthContext.jsx:118-167 | after registering, logging in with the same name, in any case, and the same password finds the new account |
| Auth.NoDuplicateNames | src/app/AuthContext.jsx:126-127 | a second registration of the same name in another case is refused as an existing user |
| Auth.NewAccountNames | src/app/AuthContext.jsx:129-135 | a new account's full name is already trimmed and never blank |
| Auth.RegisteredUserShown | src/app/AuthContext.jsx:81-147 | after registering, the user shown has the new account's id and name, and the full name given, or the username, as the name shown |
| Focus.PhaseSeconds | src/pages/Focus.jsx:6-7 | a focus phase is 1500 seconds and a break 300 |
| Focus.Hundredths | src/pages/Focus.jsx:19 | `Number((minutes / 60).toFixed(2))` in hundredths: the nearest whole number of hundredths |
| Focus.NeverHalfway | src/pages/Focus.jsx:19 | no number of minutes falls half-way between two hundredths, so the rounding never meets a tie |
| Focus.FocusEntry | src/pages/Focus.jsx:14-25 | the entry has the date, "Focus" as start and end, no pay or earnings, the source "focus", and the rounded hours |
| Focus.FocusPhaseHours | src/pages/Focus.jsx:19 | a full focus phase is recorded as 0.42 hours |
| Focus.ReadStats | src/pages/Focus.jsx:40-49 | missing or unreadable stats, or stats that are not an object, read as zeros |
| Focus.WriteThenRead | src/pages/Focus.jsx:40-53 | the counters written are read back, and a `NaN` counter comes back as 0 |
| Focus.Timer.constructor | src/pages/Focus.jsx:56-59 | the timer starts stopped on 25 minutes of focus, with the stored count of sessions |
| Focus.Timer.Start | src/pages/Focus.jsx:136 | the timer runs |
| Focus.Timer.Pause | src/pages/Focus.jsx:140 | the timer stops |
| Focus.Timer.Reset | src/pages/Focus.jsx:147-151 | the timer is stopped, in focus, on 25 minutes |
| Focus.Timer.PhaseEnd | src/pages/Focus.jsx:81-107 | after focus: one more session, 25 more minutes in the stats, the work entry in front of the work list, and a 5-minute break; after a break: 25 minutes of focus; the timer stops either way |
| Focus.Timer.Tick | src/pages/Focus.jsx:71-79 | a second passes; at zero the phase switches and the timer stops; the time left stays within the phase |
| Focus.Timer.OnStorage | src/pages/Focus.jsx:62-69 | a change to the stats key rereads the count; any other key changes nothing |
| Focus.ClockText | src/pages/Focus.jsx:109-127 | below 100 minutes the clock is five characters, with ':' in the middle |
| Focus.ClockRoundTrip | src/pages/Focus.jsx:109-127 | the two halves of the clock read back as the minutes and seconds left |
| TopBar.Normalize | src/components/TopBar.jsx:29-31 | the result has no blank at either end and no upper-case letter |
| TopBar.NormalizeIdempotent | src/components/TopBar.jsx:29-31 | normalizing twice is normalizing once |
| TopBar.Hay | src/components/TopBar.jsx:62 | the texts are the normalized label, then each normalized keyword |
| TopBar.EntryScore | src/components/TopBar.jsx:65-69 | 100 exactly for the whole text, 30 exactly for a proper prefix, 10 exactly for a part that is not a prefix, 0 exactly when the query is absent |
| TopBar.PrefixContained | src/components/TopBar.jsx:67-68 | a text that starts with the query contains it |
| TopBar.PointsPositive | src/components/TopBar.jsx:65-69 | the first n texts score exactly when one of them contains the query |
| TopBar.ScorePositive | src/components/TopBar.jsx:65-73 | an item scores exactly when its label or one of its keywords contains the query |
| TopBar.ExactMatchPoints | src/components/TopBar.jsx:66 | an exact text gives the item at least 100 points |
| TopBar.ItemScore | src/components/TopBar.jsx:61-71 | the item's score is that of its normalised name and keywords |
| TopBar.HayScore | src/components/TopBar.jsx:63-69 | the loop adds up each text's points (100 exact, 30 prefix, 10 infix) in order |
| TopBar.AllScored | src/components/TopBar.jsx:61-72 | every page with its score, in table order |
| TopBar.Results | src/components/TopBar.jsx:57-77 | at most six pages, and none for a blank query |
| TopBar.RankedFacts | src/components/TopBar.jsx:73-75 | only scoring pages, each with its true score, a permutation of the scoring pages, best first, and ties in table order |
| TopBar.ResultsMatch | src/components/TopBar.jsx:57-77 | every result is a page whose label or a keyword contains the query |
| TopBar.EffectiveName | src/components/TopBar.jsx:42-45 | the trimmed name, or "User"; never empty |
| TopBar.WordsOf | src/components/TopBar.jsx:51 | `split(/\s+/)` gives non-empty words |
| TopBar.Initials | src/components/TopBar.jsx:47-55 | "U" for a blank name; otherwise one upper-cased first letter for each of the first two words |
| TopBar.SearchBar.constructor | src/components/TopBar.jsx:38-39 | the query is empty and the list is closed, on the current path |
| TopBar.SearchBar.Type | src/components/TopBar.jsx:130-133 | the query is the text typed, and the list opens |
| TopBar.SearchBar.Submit | src/components/TopBar.jsx:92-98 | with results: go to the first one's path, close the list and clear the query; without results, nothing changes |
| TopBar.SearchBar.Navigated | src/components/TopBar.jsx:88-90 | a change of page closes the list |
| Dates.DaysInMonth | src/pages/Calendar.jsx:39-42 | every month has 28 to 31 days |
| Dates.DayNumberOf | src/components/ChatBotWidget.jsx:69 | `new Date(y, m - 1, d)` rolls months and days over; inside their ranges it is the date's own day number |
| Dates.Weekday | src/pages/Calendar.jsx:41 | `getDay()` lies in 0..6, with 1970-01-01 a Thursday |
| Dates.WeekdayShift | src/pages/Calendar.jsx:41 | k days later the weekday is k steps later, modulo 7 |
| Dates.NextDay | src/components/ChatBotWidget.jsx:70 | the day after a valid date is valid |
| Dates.NextDayNumber | src/components/ChatBotWidget.jsx:70 | the day after has the next day number |
| Dates.PrevDay | src/app/HabitsContext.jsx:61 | the day before a valid date is valid |
| Dates.PrevDayNumber | src/app/HabitsContext.jsx:61 | the day before has the previous day number |
| Dates.AddDays | src/components/ChatBotWidget.jsx:67-72 | `setDate(getDate() + n)` gives a valid date exactly n day numbers later |
| Dates.MondayOffset | src/components/ChatBotWidget.jsx:77-78 | the step back is 0 to 6 days and lands on a Monday |
| Dates.SundayOffset | src/pages/Dashboard.jsx:19-20 | the step back is 0 to 6 days and lands on a Sunday |
| Dates.StartOfWeekMonday | src/components/ChatBotWidget.jsx:74-82 | the Monday on or before the date, within the 6 days before it |
| Dates.StartOfWeekSunday | src/pages/Dashboard.jsx:15-22 | the Sunday on or before the date, within the 6 days before it |
| Dates.StartOfMonth | src/components/ChatBotWidget.jsx:84-88 | the first day of the date's month, `day - 1` days before it |
| Dates.FormatIsoParts | src/components/ChatBotWidget.jsx:62-65 | the text is the year, a dash, the two-digit month, a dash and the two-digit day |
| Dates.FormatIsoInjective | src/components/ChatBotWidget.jsx:62-65 | different dates have different texts |
| Dates.IsoToDay | src/components/ChatBotWidget.jsx:90-96 | a day is given only when the text has three dash-separated parts |
| Dates.InRangeNeedsParses | src/components/ChatBotWidget.jsx:98-104 | a date text that does not parse is never in range |
| Dates.SplitIso | src/components/ChatBotWidget.jsx:91 | splitting a formatted date on "-" gives its year, month and day texts |
| Dates.IsoToDayOfParts | src/components/ChatBotWidget.jsx:90-96 | parts that read as a valid date give that date's day number |
| Dates.IsoRoundTrip | src/components/ChatBotWidget.jsx:62-96 | reading back a formatted date gives its day number, for years from 100 on |
| Dates.InRangeOfFormatted | src/components/ChatBotWidget.jsx:98-104 | on formatted dates, `inRangeISO` is the inclusive test on day numbers |
| Dates.IsoDateTimeDay | src/pages/Dashboard.jsx:30-31 | a day is given only when the text has the shape "yyyy-mm-dd" |
| Dates.IsoDateTimeOfFormatted | src/pages/Dashboard.jsx:30-31 | a formatted date with a four-digit year reads back, as a date-time, to its own day |
| Json.Lookup | src/app/TodosContext.jsx:49 | a field is found exactly when the object has a field of that name, and the value is that field's |
| Json.Put | src/pages/Analytics.jsx:98 | the written field reads back as the new value, every other field is unchanged, and no key gets repeated |
| Json.Get | src/utils/emailExport.js:93 | reading a property of anything that is not an object is `undefined` |
| Json.Nullish | src/utils/emailExport.js:93 | `x ?? y` is `x` unless `x` is `null` or `undefined`, otherwise `y` |
| Json.AsArray | src/components/ChatBotWidget.jsx:438 | an array is kept as it is; anything else becomes `[]` |
| Json.Or | src/pages/Analytics.jsx:232 | the JavaScript or-operator gives `x` when it is truthy, otherwise `y`, and it is truthy when either one is |
| Json.Spread | src/pages/Analytics.jsx:195 | the copied fields read exactly as the properties of the value spread |
| Json.Assign | src/pages/Analytics.jsx:195 | fields absent from the second object read as in the first, and fields present in it are present in the result |
| Json.ParseItem | src/pages/Dashboard.jsx:105 | an absent key parses to `null`; the parse throws exactly when the stored text is empty or malformed |
| Json.ParseItemOr | src/pages/Dashboard.jsx:72-73 | an absent or empty key reads as the default text; the parse throws exactly on malformed text |
| Json.SafeParse | src/app/storage.js:8-14 | the stored value, or the fallback when the key is absent, unreadable or `null` |
| Json.FirstExistingAt | src/pages/Analytics.jsx:159-165 | the first key that is present decides: its parse, or the fallback when it is malformed or `null` |
| Json.FirstExistingNone | src/pages/Analytics.jsx:159-165 | with no candidate key present, the result is the fallback |
| Json.ReadFirstExisting | src/pages/Analytics.jsx:159-165 | the loop over the keys returns the value of the first-present-key specification |
| Json.SetItem | src/app/storage.js:21-24 | the key now holds the value, and every other key is unchanged |
| Json.SafeParseOfSet | src/app/storage.js:8-24 | storing a non-null value and then parsing it back gives the value |
| Json.NumberOf | src/utils/emailExport.js:13 | falsy values give 0, and a number gives itself |
| Json.AddOpt | src/pages/Focus.jsx:87 | a sum is a number exactly when both operands are; `NaN` absorbs |
| Json.StoredList | src/app/NotesContext.jsx:15 | a stored array is its items; an absent or unreadable key is `[]` |
| Json.Stamped | src/app/NotesContext.jsx:23 | the record gets the new id and creation time, and every other field is kept |
| Json.LookupUnique | src/pages/Focus.jsx:89-92 | in an object without repeated keys, each field is found under its own name |
| Json.KeysByShape | src/pages/Dashboard.jsx:87 | keys that differ in length or in a chosen position are distinct |
| Records.Flip | src/app/AppDataContext.jsx:48 | the flag becomes the negation of its truthiness, and every other field is kept |
| Records.Toggled | src/app/AppDataContext.jsx:46-50 | records with the id have the flag flipped and the rest of their fields kept; other records are unchanged; the length is kept |
| Records.Deleted | src/app/AppDataContext.jsx:52-54 | exactly the records without the id remain |
| Records.DeletedAppend | src/app/AppDataContext.jsx:52-54 | deletion distributes over concatenation, so the order is kept |
| Records.DeleteFreshHead | src/app/AppDataContext.jsx:35-54 | deleting a record just added in front, whose id is fresh, gives back the old list |
| Records.PutSame | src/app/AppDataContext.jsx:48 | writing a field with the value it already has changes nothing |
| Records.PutPut | src/app/AppDataContext.jsx:48 | writing a field twice keeps only the second value |
| Records.FlipTwice | src/app/AppDataContext.jsx:48 | flipping a boolean flag twice restores the record |
| Records.ToggleTwice | src/app/AppDataContext.jsx:46-50 | toggling the same id twice restores a list whose matching records hold a boolean flag |
| DayStore.DayItems | src/components/ChatBotWidget.jsx:438 | a day's list is the stored array, or `[]` when the day is missing |
| DayStore.Migrate | src/components/ChatBotWidget.jsx:421-427 | a legacy array becomes today's list and every other day is empty; an object is read as it is; anything else gives empty days |
| DayStore.Prepend | src/components/ChatBotWidget.jsx:438-439 | the day's list gains the item in front, and every other day is kept |
| DayStore.SetDay | src/pages/Calendar.jsx:183-185 | the day's list is replaced, and every other day is kept |
| DayStore.SetDayThenRead | src/pages/Dashboard.jsx:78-82 | reading back a day that was just written gives the list written, after migration |
| Identity.FirstNonEmpty | src/utils/emailExport.js:39-42 | the first non-empty candidate, else the default |
| Identity.FirstNonEmptyNonEmpty | src/utils/emailExport.js:39-42 | a non-empty default makes the result non-empty |

## Left out

- Where a finding below corrects the code, the rest of the model is built on the corrected definition. The lines that follow name each member that differs from the code as written for that reason.
- `ChatBot.ReminderTime`: reads the time with the corrected `ChatParse.ParseTimeFixed` (third finding), so "5:30 pm" gives 17:30. The code as written uses `ChatParse.ParseTime`, which gives 05:30.
- `ChatBot.ReminderTokens`: lists the corrected time token `ChatParse.TimeTokenFixed` (third finding). As written the token is `ChatParse.TimeToken`, and "pm" stays in the reminder's text.
- `ChatParse.RemoveTokens`: removes each token only where it stands as a whole word (`ChatParse.ReplaceWords`, second finding). As written, `replaceAll` also removes it inside words (`ChatParse.ReplaceAll`).
- `ChatParse.StripTokensForText`: computes `ChatParse.RemoveTokens` and so removes tokens only as whole words (second finding).
- `ChatBot.Session.CreateReminder`: its time, date and text come from the corrected `ChatBot.ReminderTime`, `ChatBot.ReminderTokens` and `ChatParse.StripTokensForText`.
- `ChatBot.Session.SaveHomeTodo`: writes today's entry of the per-day home store (`ChatBot.HomeStoreAfter`, first finding). As written it writes a flat array, which `ChatBot.HomeTodosAsWritten` models.
- `ChatBot.Session.SaveTodo`: its home mirror is the corrected per-day write of `ChatBot.Session.SaveHomeTodo` (first finding).
- `ChatBot.Session.CreateTodo`: cleans its text with the corrected `ChatParse.StripTokensForText` and saves through the corrected `ChatBot.Session.SaveTodo`.
- `ChatBot.Session.TryTodo`, `ChatBot.Session.TryNoteOrTodo`, `ChatBot.Session.TryHandleCreateCommands`, `ChatBot.Session.Respond` and `ChatBot.Session.Exchange`: they carry out the corrected commands above.
- `EmailExport.TargetOf`: the target part keeps its leading " • " (fourth finding). As written it is trimmed away (`ExportText.TargetAsWritten`).
- `EmailExport.GoalBody`: joins the corrected `EmailExport.TargetOf`, so the goal line reads "Run • Target: 5 km" where the code gives "Run• Target: 5 km".
- `EmailExport.GoalLines`, `EmailExport.PushGoals`, `EmailExport.ReportLines`, `EmailExport.Report` and `EmailExport.BuildEmailReport`: their goal lines come from the corrected `EmailExport.GoalBody`.
- Rendering: JSX layout and styling, the charts and `makeSparkPoints`, modal `open` props, outside-click handling and scrolling. These have no behaviour beyond what is drawn.
- Events and timers: `dispatchEvent` refresh events, storage, focus and visibility listeners, `setTimeout(navigate)` and the Pomodoro `setInterval`. They are modelled only as the method that each handler runs (`Focus.Timer.Tick`, `ChatBot.Session.SelectDate`, `Focus.Timer.OnStorage`).
- The clock and randomness are parameters: `Date.now`, `new Date()`, `crypto.randomUUID`, `uid`, `nowTime` and `toLocaleString` texts. Notes' random quote is not modelled. The quote of the habits page is a function of its seed.
- `openMailClient` (the `mailto:` URL and its percent-encoding) and `alert`. The mail is returned as a value instead.
- Floating point:
  - Json numbers are integers.
  - `toFixed`, `Number(x.toFixed(2))` and `Math.round` on fractional values are modelled on integers. Analytics progress uses exact reals.
  - `Math.round` of a ratio times 100 is modelled on exact rationals (`Lists.RoundedPercent`, halves rounded up); a floating-point error that moves a value across a half is not modelled.
  - Fractional hours are not modelled; `hoursFmt` prints a whole number of hours with ".0h".
  - The effective hourly rate of the chat's earnings answer is not modelled.
- `toLocaleString` for money is modelled as the English "$1,234.00" form. `localeCompare` is modelled as code-point order (`LexLess`).
- Case mapping covers ASCII letters only; a letter whose upper case is two letters ("ß") is not modelled. `trim` and `\s` use JavaScript's full white-space set (`Strings.IsSpace`).
- `JSON.parse` is a given: stored text is `Blank`, `Garbage` or a parsed document.
- `Focus.Timer.PhaseEnd`: Focus's `saveWork` parses the stored work list without a fallback, so garbage under the key throws, and it spreads whatever it reads into the new array. The model keeps that list as a list of entries (`Focus.Timer.work`); garbage and stored values that are not arrays are not modelled.
- `Json.NumberOf`: an array is read as `NaN`; `Number` reads `[]` as 0 and a one-element array as its element's number.
- `Json.Spread`: a string or an array spreads nothing here; in JavaScript `{ ...v }` copies its indices as keys.
- `ChatBot.OwnFields`: as `Json.Spread`, a stored string or array gives no days, where JavaScript would copy its indices as keys.
- `DashboardPage.WithField`: a string or an array becomes a fresh object with the one field; JavaScript would also keep its indices as keys.
- `CalendarPage.Loaded`: a stored value that is not an object reads as `{}`. The source keeps any parsed value that is not `null` (an array, a number), which the page would then index.
- `Auth.RegisterError`: the password length is counted in characters (code points); JavaScript's `length` counts UTF-16 units, so a password with characters outside the Basic Multilingual Plane can pass the 4-character check there and fail it here.
- `WorkHours.ParseCents`: reads only unsigned decimals with at most two decimals, white space around them allowed. `Number` also reads a sign ("-5"), an exponent ("1e2"), hexadecimal ("0x10"), "Infinity" and more decimals ("12.345"); all of these read as `None` here.
- `WorkHours.NewSession`: the rate goes through `WorkHours.ParseCents`, so a rate such as "-5", "1e2", "0x10" or "12.345" is stored as not a number (`None`), where the source stores -5 (with negative earnings), 100, 16 or 12.35.
- `WorkHours.NewExpense`: the amount goes through `WorkHours.ParseCents`, so an amount such as "1e2", "0x10" or "12.345" is refused, where the source saves 100, 16 or 12.35. Negative amounts are refused by both.
- `WorkHours.Earnings`: gets its rate from `WorkHours.ParseCents` and so shares its limits.
- `GoalsPage.TargetNumber`: reads only unsigned whole numbers. `Number(targetValue) || 0` also reads "-5", "1e2", "0x10" and "12.5"; these give 0 here.
- The texts of the chat's answers are not modelled: the plan, the notes summary, the focus plan, weekly productivity, the money answers, the help and the fallback menu. Each reply is modelled as its kind and the data it reports (`ChatBot.Reply`).
- The effect that saves the chat history after every change is not modelled. The constructor takes the saved history as a parameter.
- The `addNote` "not available" and `catch` branches of the chat's note command are not modelled. `addNote` always exists in this model.
- Analytics:
  - `workThisMonth`, `completionSeries` and `workHoursSeries` are not modelled.
  - Only "YYYY-MM-DD" and "MM/DD/YYYY" dates are read; other `new Date(value)` forms read as no date.
  - `Object.entries` order is the stored field order.
  - Map keys that are objects are compared by value, not by identity.
  - A `null` goal element, which makes the page throw, is not modelled.
  - `weeklyEarnings` rounds to whole units with `toFixed(0)`; that rounding is not modelled.
- The dashboard's `monthEarn` card is not modelled.
- The calendar's `prevMonth` / `nextMonth` buttons and the jump of its cursor to the selected month are not modelled.
- The top bar's `doLogout` is not modelled; `Auth.Provider.Logout` is.
- The UTC-versus-local date mismatch of `toISOString` is not modelled: every "today" is one parameter.
- `ChatBot.SumField`: `NaN` is modelled, but floating-point sums are not.
- `Analytics.Buckets`: its own contract states only the four slots; what they hold is stated by `Analytics.BucketsAddUp` and `Analytics.WeeksAddUp`.
- `Analytics.Progress`: its own contract states the 0..100 bound only; the choice among `progress`, `current / target` and the done flag is in its body.
- `ExportText.Money`: amounts are whole units, so the cents are always ".00".
- `Analytics.ToBool`: the string case is stated by `Analytics.ToBoolYes`, `Analytics.ToBoolTrue` and `Analytics.ToBoolNo` on examples, not for every string.

## Findings

| source | as written | input that shows it | evidently intended | confidence | as-written member | corrected member |
|---|---|---|---|---|---|---|
| src/components/ChatBotWidget.jsx:388-403 | `saveHomeTodo` reads "taskflow_todos_today" as a flat array, although the dashboard keeps a per-day map there, and writes an array back | a stored map `{"2025-01-01": [a], "2025-01-02": [b]}` and a chat todo c for 2025-01-02: the home page then reads only [c] for today and nothing for any other day | today's list gains the todo and every other day is kept, as `saveHomeReminder` does for reminders | high, not executed | ChatBot.HomeTodoAsWrittenLosesDays | ChatBot.HomeStoreAfter |
| src/components/ChatBotWidget.jsx:355-364 | each token is removed wherever it occurs, inside words too | "set reminder 18:30 water plants": the token "at" turns "water" into "w er" | command words removed only where they stand as words | high, not executed | ChatParse.CommandWordInsideWord | ChatParse.CommandWordAsWord |
| src/components/ChatBotWidget.jsx:308-340 | the 24-hour pattern is tried first and matches "5:30" before the "pm" is seen | "remind me 5:30 pm call" is saved at 05:30 and leaves "pm" in the text | 17:30, with the whole "5:30 pm" as the time token | high, not executed | ChatParse.PmAfterColonIgnored | ChatParse.ParseFormattedClock12 |
| src/utils/emailExport.js:158-162 | the whole target part is trimmed, which also removes its leading blank | goal {title: "Run", targetValue: 5, unit: "km", dueDate: "2025-01-01"} gives "1. Run• Target: 5 km • Due: 2025-01-01" | " • Target: 5 km", separated like the category and the due date | high, not executed | ExportText.TrimDropsSeparator | ExportText.TargetKeepsSeparator |
