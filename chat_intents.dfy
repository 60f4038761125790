/**
 * The chat assistant's intent detection (`src/components/ChatBotWidget.jsx`):
 * fixed keyword tests on the normalised message, the time-frame words, and
 * the page each navigation phrase opens.
 */
module ChatIntents {
  import opened Wrappers
  import opened Strings

  // ---------------------------------------------------------------- conversational intents

  predicate IsGreeting(t: string)
  {
    t == "hi" || t == "hello" || t == "hey"
    || StartsWith(t, "hi ") || StartsWith(t, "hello ") || StartsWith(t, "hey ")
  }

  predicate IsHowAreYou(t: string)
  {
    Contains(t, "how are you") || Contains(t, "how r you") || Contains(t, "how are u")
  }

  predicate IsWhoAmI(t: string)
  {
    Contains(t, "who am i") || Contains(t, "who i am") || Contains(t, "what is my name") || Contains(t, "my name")
  }

  predicate IsThanks(t: string) { Contains(t, "thank") || t == "thanks" || t == "ty" }

  predicate IsWhoAreYou(t: string)
  {
    Contains(t, "who are you") || Contains(t, "what are you") || Contains(t, "your name")
  }

  predicate IsSmallTalkInvite(t: string)
  {
    Contains(t, "talk to me") || Contains(t, "interact with me") || Contains(t, "chat with me")
    || Contains(t, "be my friend") || Contains(t, "keep me company")
  }

  predicate IsGreetingTime(t: string)
  {
    Contains(t, "good morning") || Contains(t, "good afternoon") || Contains(t, "good evening")
    || Contains(t, "good night")
  }

  // ---------------------------------------------------------------- feature intents

  predicate LooksLikeTodayPlan(t: string)
  {
    Contains(t, "what should i do today") || Contains(t, "plan my day") || Contains(t, "today plan")
    || (Contains(t, "what") && Contains(t, "do") && Contains(t, "today"))
  }

  predicate LooksLikeNotesSummary(t: string)
  {
    Contains(t, "summarize my notes") || Contains(t, "summary of my notes")
    || (Contains(t, "summarize") && Contains(t, "notes")) || Contains(t, "notes summary")
  }

  predicate LooksLikeFocusPlan(t: string)
  {
    Contains(t, "suggest a focus plan") || Contains(t, "focus plan") || Contains(t, "pomodoro")
    || (Contains(t, "suggest") && Contains(t, "focus"))
  }

  predicate LooksLikeWeeklyProductivity(t: string)
  {
    Contains(t, "how productive was i this week") || Contains(t, "this week productivity")
    || (Contains(t, "productive") && Contains(t, "week")) || Contains(t, "weekly report")
  }

  predicate WantsWorkHours(t: string)
  {
    Contains(t, "my work") || Contains(t, "workings") || Contains(t, "work hours")
    || (Contains(t, "hours") && Contains(t, "work"))
  }

  predicate WantsEarnings(t: string)
  {
    Contains(t, "my earning") || Contains(t, "my earnings") || Contains(t, "earning")
    || Contains(t, "earnings") || Contains(t, "income") || Contains(t, "salary")
  }

  predicate WantsExpenses(t: string)
  {
    Contains(t, "my expense") || Contains(t, "my expenses") || Contains(t, "expense")
    || Contains(t, "expenses") || Contains(t, "spent") || Contains(t, "spend")
  }

  predicate WantsNet(t: string)
  {
    Contains(t, "net") || Contains(t, "profit") || Contains(t, "balance")
    || (Contains(t, "my") && Contains(t, "profit"))
  }

  // ---------------------------------------------------------------- create commands

  predicate LooksLikeCreateCalendarReminder(t: string)
  {
    Contains(t, "set reminder") || Contains(t, "add reminder") || Contains(t, "create reminder")
    || StartsWith(t, "remind me") || (Contains(t, "reminder") && Contains(t, "at "))
  }

  predicate LooksLikeCreateNote(t: string)
  {
    StartsWith(t, "create note") || StartsWith(t, "add note") || Contains(t, "create note ")
  }

  predicate LooksLikeCreateTodo(t: string)
  {
    StartsWith(t, "add todo") || StartsWith(t, "create todo") || StartsWith(t, "add task")
    || StartsWith(t, "create task")
  }

  // ---------------------------------------------------------------- time frames

  datatype Timeframe = Today | Week | Month | Total

  predicate SaysTotal(t: string)
  {
    Contains(t, "all time") || Contains(t, "overall") || Contains(t, "total") || Contains(t, "lifetime")
  }

  /**
   * `detectTimeframe`: total words first, then "month", then "week", and
   * today otherwise (the explicit "today"/"now" test changes nothing).
   */
  function DetectTimeframe(t: string): (tf: Timeframe)
    ensures tf == Total <==> SaysTotal(t)
    ensures tf == Month <==> !SaysTotal(t) && Contains(t, "month")
    ensures tf == Week <==> !SaysTotal(t) && !Contains(t, "month") && Contains(t, "week")
    ensures tf == Today <==> !SaysTotal(t) && !Contains(t, "month") && !Contains(t, "week")
  {
    ContainsInfix(t, "this month", "month", 5);
    ContainsInfix(t, "this week", "week", 5);
    if SaysTotal(t) then Total
    else if Contains(t, "this month") || Contains(t, "month") then Month
    else if Contains(t, "this week") || Contains(t, "week") then Week
    else if Contains(t, "today") || Contains(t, "now") then Today
    else Today
  }

  /** `labelForTF`. */
  function TimeframeLabel(tf: Timeframe): string
  {
    match tf
    case Today => "Today"
    case Week => "This week"
    case Month => "This month"
    case Total => "Total"
  }

  // ---------------------------------------------------------------- navigation

  datatype Route = Home | CalendarPage | NotesPage | WorkHoursPage | GoalsPage | HabitsPage | FocusPage | AnalyticsPage

  function RoutePath(r: Route): string
  {
    match r
    case Home => "/dashboard"
    case CalendarPage => "/calendar"
    case NotesPage => "/notes"
    case WorkHoursPage => "/work-hours"
    case GoalsPage => "/goals"
    case HabitsPage => "/habits"
    case FocusPage => "/focus"
    case AnalyticsPage => "/analytics"
  }

  /** The label of "Opening <label>…": "home" for the dashboard, else the path without its slash. */
  function RouteLabel(r: Route): (name: string)
    ensures r != Home ==> "/" + name == RoutePath(r)
  {
    if r == Home then "home" else RoutePath(r)[1..]
  }

  /** The regular expression `(^| )w( |$)`: `w` as a whole blank-separated word. */
  predicate HasWord(t: string, w: string)
  {
    exists i :: 0 <= i <= |t| - |w| && OccursAt(t, w, i)
      && (i == 0 || t[i - 1] == ' ') && (i + |w| == |t| || t[i + |w|] == ' ')
  }

  lemma HasWordContains(t: string, w: string)
    requires HasWord(t, w)
    ensures Contains(t, w)
  {
    var i :| 0 <= i <= |t| - |w| && OccursAt(t, w, i);
    ContainsAt(t, w, i);
  }

  // The keyword tests of `matchRoute`, one per page, on normalised text.

  predicate SaysHome(t: string) { HasWord(t, "home") || Contains(t, "open home") }

  predicate SaysCalendar(t: string) { HasWord(t, "calendar") || Contains(t, "open calendar") }

  predicate SaysNotes(t: string) { HasWord(t, "notes") || Contains(t, "open notes") }

  predicate SaysWorkHours(t: string)
  {
    Contains(t, "work hours") || Contains(t, "open work") || Contains(t, "open work hours")
  }

  predicate SaysGoals(t: string) { HasWord(t, "goals") || Contains(t, "open goals") }

  predicate SaysHabits(t: string)
  {
    Contains(t, "habits") || Contains(t, "open habits") || Contains(t, "habit tracker")
  }

  predicate SaysFocus(t: string)
  {
    Contains(t, "open focus") || HasWord(t, "focus") || Contains(t, "pomodoro")
    || Contains(t, "focus timer") || Contains(t, "start focus")
  }

  predicate SaysAnalytics(t: string) { Contains(t, "analytics") || Contains(t, "open analytics") }

  /** `matchRoute`: the first page whose keyword test passes on the normalised text. */
  function MatchRoute(text: string): (r: Option<Route>)
    ensures var t := NormalizeText(text);
      r == Some(Home) <==> SaysHome(t)
    ensures var t := NormalizeText(text);
      r == Some(CalendarPage) <==> !SaysHome(t) && SaysCalendar(t)
    ensures var t := NormalizeText(text);
      r == Some(NotesPage) <==> !SaysHome(t) && !SaysCalendar(t) && SaysNotes(t)
    ensures var t := NormalizeText(text);
      r == Some(WorkHoursPage) <==>
        !SaysHome(t) && !SaysCalendar(t) && !SaysNotes(t) && SaysWorkHours(t)
    ensures var t := NormalizeText(text);
      r == Some(GoalsPage) <==>
        !SaysHome(t) && !SaysCalendar(t) && !SaysNotes(t) && !SaysWorkHours(t) && SaysGoals(t)
    ensures var t := NormalizeText(text);
      r == Some(HabitsPage) <==>
        !SaysHome(t) && !SaysCalendar(t) && !SaysNotes(t) && !SaysWorkHours(t) && !SaysGoals(t)
        && SaysHabits(t)
    ensures var t := NormalizeText(text);
      r == Some(FocusPage) <==>
        !SaysHome(t) && !SaysCalendar(t) && !SaysNotes(t) && !SaysWorkHours(t) && !SaysGoals(t)
        && !SaysHabits(t) && SaysFocus(t)
    ensures var t := NormalizeText(text);
      r == Some(AnalyticsPage) <==>
        !SaysHome(t) && !SaysCalendar(t) && !SaysNotes(t) && !SaysWorkHours(t) && !SaysGoals(t)
        && !SaysHabits(t) && !SaysFocus(t) && SaysAnalytics(t)
    ensures var t := NormalizeText(text);
      r.None? <==>
        !SaysHome(t) && !SaysCalendar(t) && !SaysNotes(t) && !SaysWorkHours(t) && !SaysGoals(t)
        && !SaysHabits(t) && !SaysFocus(t) && !SaysAnalytics(t)
  {
    var t := NormalizeText(text);
    if SaysHome(t) then Some(Home)
    else if SaysCalendar(t) then Some(CalendarPage)
    else if SaysNotes(t) then Some(NotesPage)
    else if SaysWorkHours(t) then Some(WorkHoursPage)
    else if SaysGoals(t) then Some(GoalsPage)
    else if SaysHabits(t) then Some(HabitsPage)
    else if SaysFocus(t) then Some(FocusPage)
    else if SaysAnalytics(t) then Some(AnalyticsPage)
    else None
  }

  /** The phrase the help text offers for each page. */
  function OpenPhrase(r: Route): string
  {
    match r
    case Home => "open home"
    case CalendarPage => "open calendar"
    case NotesPage => "open notes"
    case WorkHoursPage => "open work hours"
    case GoalsPage => "open goals"
    case HabitsPage => "open habits"
    case FocusPage => "open focus"
    case AnalyticsPage => "open analytics"
  }

  /** Lower-case words separated by single blanks: text that normalises to itself. */
  predicate PlainWords(s: string)
  {
    && (forall k :: 0 <= k < |s| ==> IsLowerAscii(s[k]) || s[k] == ' ')
    && (forall k :: 0 <= k < |s| - 1 && s[k] == ' ' ==> s[k + 1] != ' ')
    && (s == [] || (s[0] != ' ' && s[|s| - 1] != ' '))
  }

  lemma PlainWordsNormal(s: string)
    requires PlainWords(s)
    ensures NormalizeText(s) == s
  {
    assert Lower(s) == s;
    NormalizeOfNormal(s);
  }

  /** A keyword with a character the text lacks matches neither as a word nor as a substring. */
  lemma Absent(t: string, w: string, k: nat)
    requires k < |w| && w[k] !in t
    ensures !Contains(t, w) && !HasWord(t, w)
  {
    MissingChar(t, w, k);
    if HasWord(t, w) { HasWordContains(t, w); }
  }

  /** The same, for a keyword with two neighbouring characters the text never has side by side. */
  lemma AbsentPair(t: string, w: string, k: nat)
    requires k + 1 < |w|
    requires forall j :: 0 <= j < |t| - 1 ==> !(t[j] == w[k] && t[j + 1] == w[k + 1])
    ensures !Contains(t, w) && !HasWord(t, w)
  {
    MissingPair(t, w, k);
    if HasWord(t, w) { HasWordContains(t, w); }
  }

  /** Every "open <page>" phrase the help text suggests navigates to that page. */
  lemma OpenPhraseRoutes(r: Route)
    ensures MatchRoute(OpenPhrase(r)) == Some(r)
  {
    match r
    case Home => OpensHome(OpenPhrase(r));
    case CalendarPage => OpensCalendarPage(OpenPhrase(r));
    case NotesPage => OpensNotesPage(OpenPhrase(r));
    case WorkHoursPage => OpensWorkHoursPage(OpenPhrase(r));
    case GoalsPage => OpensGoalsPage(OpenPhrase(r));
    case HabitsPage => OpensHabitsPage(OpenPhrase(r));
    case FocusPage => OpensFocusPage(OpenPhrase(r));
    case AnalyticsPage => OpensAnalyticsPage(OpenPhrase(r));
  }

  lemma OpensHome(t: string)
    requires t == OpenPhrase(Home)
    ensures MatchRoute(t) == Some(Home)
  {
    assert PlainWords(t);
    PlainWordsNormal(t);
    KeywordsHome(t);
  }

  lemma KeywordsHome(t: string)
    requires t == OpenPhrase(Home)
    ensures SaysHome(t)
  {
    assert HasWord(t, "home") by { assert OccursAt(t, "home", 5); }
  }

  lemma OpensCalendarPage(t: string)
    requires t == OpenPhrase(CalendarPage)
    ensures MatchRoute(t) == Some(CalendarPage)
  {
    assert PlainWords(t);
    PlainWordsNormal(t);
    KeywordsCalendarPage(t);
  }

  lemma KeywordsCalendarPage(t: string)
    requires t == OpenPhrase(CalendarPage)
    ensures !SaysHome(t)
    ensures SaysCalendar(t)
  {
    assert !SaysHome(t) by { Absent(t, "home", 0); Absent(t, "open home", 5); }
    assert HasWord(t, "calendar") by { assert OccursAt(t, "calendar", 5); }
  }

  lemma OpensNotesPage(t: string)
    requires t == OpenPhrase(NotesPage)
    ensures MatchRoute(t) == Some(NotesPage)
  {
    assert PlainWords(t);
    PlainWordsNormal(t);
    KeywordsNotesPage(t);
  }

  lemma KeywordsNotesPage(t: string)
    requires t == OpenPhrase(NotesPage)
    ensures !SaysHome(t)
    ensures !SaysCalendar(t)
    ensures SaysNotes(t)
  {
    assert !SaysHome(t) by { Absent(t, "home", 0); Absent(t, "open home", 5); }
    assert !SaysCalendar(t) by { Absent(t, "calendar", 0); Absent(t, "open calendar", 5); }
    assert HasWord(t, "notes") by { assert OccursAt(t, "notes", 5); }
  }

  lemma OpensWorkHoursPage(t: string)
    requires t == OpenPhrase(WorkHoursPage)
    ensures MatchRoute(t) == Some(WorkHoursPage)
  {
    assert PlainWords(t);
    PlainWordsNormal(t);
    KeywordsWorkHoursPage(t);
    SaysWorkHoursPage(t);
  }

  lemma KeywordsWorkHoursPage(t: string)
    requires t == OpenPhrase(WorkHoursPage)
    ensures !SaysHome(t)
    ensures !SaysCalendar(t)
    ensures !SaysNotes(t)
  {
    assert !SaysHome(t) by { Absent(t, "home", 2); Absent(t, "open home", 7); }
    assert !SaysCalendar(t) by { Absent(t, "calendar", 0); Absent(t, "open calendar", 5); }
    assert !SaysNotes(t) by { Absent(t, "notes", 2); Absent(t, "open notes", 7); }
  }

  lemma SaysWorkHoursPage(t: string)
    requires t == OpenPhrase(WorkHoursPage)
    ensures SaysWorkHours(t)
  {
    assert t[5..15] == "work hours";
    ContainsAt(t, "work hours", 5);
  }

  lemma OpensGoalsPage(t: string)
    requires t == OpenPhrase(GoalsPage)
    ensures MatchRoute(t) == Some(GoalsPage)
  {
    assert PlainWords(t);
    PlainWordsNormal(t);
    KeywordsGoalsPage(t);
  }

  lemma KeywordsGoalsPage(t: string)
    requires t == OpenPhrase(GoalsPage)
    ensures !SaysHome(t)
    ensures !SaysCalendar(t)
    ensures !SaysNotes(t)
    ensures !SaysWorkHours(t)
    ensures SaysGoals(t)
  {
    assert !SaysHome(t) by { Absent(t, "home", 0); Absent(t, "open home", 5); }
    assert !SaysCalendar(t) by { Absent(t, "calendar", 0); Absent(t, "open calendar", 5); }
    assert !SaysNotes(t) by { Absent(t, "notes", 2); Absent(t, "open notes", 7); }
    assert !SaysWorkHours(t) by { Absent(t, "work hours", 0); Absent(t, "open work", 5); Absent(t, "open work hours", 5); }
    assert HasWord(t, "goals") by { assert OccursAt(t, "goals", 5); }
  }

  lemma OpensHabitsPage(t: string)
    requires t == OpenPhrase(HabitsPage)
    ensures MatchRoute(t) == Some(HabitsPage)
  {
    assert PlainWords(t);
    PlainWordsNormal(t);
    KeywordsHabitsPage(t);
    LaterKeywordsHabitsPage(t);
  }

  lemma KeywordsHabitsPage(t: string)
    requires t == OpenPhrase(HabitsPage)
    ensures !SaysHome(t)
    ensures !SaysCalendar(t)
    ensures !SaysNotes(t)
  {
    assert !SaysHome(t) by { Absent(t, "home", 2); Absent(t, "open home", 7); }
    assert !SaysCalendar(t) by { Absent(t, "calendar", 0); Absent(t, "open calendar", 5); }
    assert !SaysNotes(t) by { AbsentPair(t, "notes", 0); AbsentPair(t, "open notes", 5); }
  }

  lemma LaterKeywordsHabitsPage(t: string)
    requires t == OpenPhrase(HabitsPage)
    ensures !SaysWorkHours(t)
    ensures !SaysGoals(t)
    ensures SaysHabits(t)
  {
    assert !SaysWorkHours(t) by { Absent(t, "work hours", 0); Absent(t, "open work", 5); Absent(t, "open work hours", 5); }
    assert !SaysGoals(t) by { Absent(t, "goals", 0); Absent(t, "open goals", 5); }
    SaysHabitsPage(t);
  }

  lemma SaysHabitsPage(t: string)
    requires t == OpenPhrase(HabitsPage)
    ensures SaysHabits(t)
  {
    assert t[5..11] == "habits";
    ContainsAt(t, "habits", 5);
  }

  lemma OpensFocusPage(t: string)
    requires t == OpenPhrase(FocusPage)
    ensures MatchRoute(t) == Some(FocusPage)
  {
    assert PlainWords(t);
    PlainWordsNormal(t);
    KeywordsFocusPage(t);
    LaterKeywordsFocusPage(t);
  }

  lemma KeywordsFocusPage(t: string)
    requires t == OpenPhrase(FocusPage)
    ensures !SaysHome(t)
    ensures !SaysCalendar(t)
    ensures !SaysNotes(t)
  {
    assert !SaysHome(t) by { Absent(t, "home", 0); Absent(t, "open home", 5); }
    assert !SaysCalendar(t) by { Absent(t, "calendar", 1); Absent(t, "open calendar", 6); }
    assert !SaysNotes(t) by { Absent(t, "notes", 2); Absent(t, "open notes", 7); }
  }

  lemma LaterKeywordsFocusPage(t: string)
    requires t == OpenPhrase(FocusPage)
    ensures !SaysWorkHours(t)
    ensures !SaysGoals(t)
    ensures !SaysHabits(t)
    ensures SaysFocus(t)
  {
    assert !SaysWorkHours(t) by { Absent(t, "work hours", 0); Absent(t, "open work", 5); Absent(t, "open work hours", 5); }
    assert !SaysGoals(t) by { Absent(t, "goals", 0); Absent(t, "open goals", 5); }
    assert !SaysHabits(t) by { Absent(t, "habits", 0); Absent(t, "open habits", 5); Absent(t, "habit tracker", 0); }
    SaysFocusPage(t);
  }

  lemma SaysFocusPage(t: string)
    requires t == OpenPhrase(FocusPage)
    ensures SaysFocus(t)
  {
    assert t[0..10] == "open focus";
    ContainsAt(t, "open focus", 0);
  }

  lemma OpensAnalyticsPage(t: string)
    requires t == OpenPhrase(AnalyticsPage)
    ensures MatchRoute(t) == Some(AnalyticsPage)
  {
    assert PlainWords(t);
    PlainWordsNormal(t);
    KeywordsAnalyticsPage(t);
    LaterKeywordsAnalyticsPage(t);
    LastKeywordsAnalyticsPage(t);
  }

  lemma KeywordsAnalyticsPage(t: string)
    requires t == OpenPhrase(AnalyticsPage)
    ensures !SaysHome(t)
    ensures !SaysCalendar(t)
    ensures !SaysNotes(t)
    ensures !SaysWorkHours(t)
  {
    assert !SaysHome(t) by { Absent(t, "home", 0); Absent(t, "open home", 5); }
    assert !SaysCalendar(t) by { Absent(t, "calendar", 5); Absent(t, "open calendar", 10); }
    assert !SaysNotes(t) by { AbsentPair(t, "notes", 0); AbsentPair(t, "open notes", 5); }
    assert !SaysWorkHours(t) by { Absent(t, "work hours", 0); Absent(t, "open work", 5); Absent(t, "open work hours", 5); }
  }

  lemma LaterKeywordsAnalyticsPage(t: string)
    requires t == OpenPhrase(AnalyticsPage)
    ensures !SaysGoals(t)
    ensures !SaysHabits(t)
  {
    assert !SaysGoals(t) by { Absent(t, "goals", 0); Absent(t, "open goals", 5); }
    assert !SaysHabits(t) by { Absent(t, "habits", 0); Absent(t, "open habits", 5); Absent(t, "habit tracker", 0); }
  }

  lemma LastKeywordsAnalyticsPage(t: string)
    requires t == OpenPhrase(AnalyticsPage)
    ensures !SaysFocus(t)
    ensures SaysAnalytics(t)
  {
    assert !SaysFocus(t) by { Absent(t, "open focus", 5); Absent(t, "focus", 0); Absent(t, "pomodoro", 4); Absent(t, "focus timer", 0); Absent(t, "start focus", 6); }
    SaysAnalyticsPage(t);
  }

  lemma SaysAnalyticsPage(t: string)
    requires t == OpenPhrase(AnalyticsPage)
    ensures SaysAnalytics(t)
  {
    assert t[5..14] == "analytics";
    ContainsAt(t, "analytics", 5);
  }
}
