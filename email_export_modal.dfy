/**
 * The "Export to Email" dialog: the stored lists, each replaced by the
 * caller's live list when it passes one, the six section checkboxes, and
 * the message handed to the mail client.
 */
module EmailExportModal {
  import opened Wrappers
  import opened Strings
  import opened Json
  import opened Identity
  import opened EmailExport

  // ---------------------------------------------------------------- the data shown

  /** `override ?? base ?? []`: a live list wins, then the stored value unless it is `null`. */
  function Pick(over: Option<Json>, base: Json): (r: Json)
    ensures over.Some? && over.value.JArr? ==> r == over.value
    ensures (over.None? || !over.value.JArr?) && base != JNull ==> r == base
    ensures r != JNull
  {
    if over.Some? && over.value.JArr? then over.value
    else if base != JNull then base
    else JArr([])
  }

  /** The data the report is built from: storage read for the signed-in user, field by field overridden. */
  function MergedData(st: Storage, user: Who, dataOverride: Option<Json>): (d: Data)
  {
    var base := TaskFlowData(st, ByRecord(user));
    Data(Pick(GetOpt(dataOverride, "workSessions"), base.workSessions),
         Pick(GetOpt(dataOverride, "expenses"), base.expenses),
         Pick(GetOpt(dataOverride, "goals"), base.goals),
         Pick(GetOpt(dataOverride, "todos"), base.todos),
         Pick(GetOpt(dataOverride, "reminders"), base.reminders))
  }

  /** Without an override the dialog shows exactly what is stored. */
  lemma NoOverrideIsStored(st: Storage, user: Who)
    ensures MergedData(st, user, None) == TaskFlowData(st, ByRecord(user))
  {
    var base := TaskFlowData(st, ByRecord(user));
    var u := UserOf(ByRecord(user));
    SafeNeverNull(st, SessionKeys(u));
    SafeNeverNull(st, ExpenseKeys(u));
    SafeNeverNull(st, GoalKeys(u));
    SafeNeverNull(st, TodoKeys(u));
    SafeNeverNull(st, ReminderKeys(u));
  }

  /** What `pick` returns is never `null`: a stored `null` gives the `[]` fallback. */
  lemma {:induction false} SafeNeverNull(st: Storage, keys: seq<string>)
    ensures FirstExisting(st, keys, JArr([])) != JNull
    decreases |keys|
  {
    if keys != [] && !Present(st, keys[0]) {
      SafeNeverNull(st, keys[1..]);
    }
  }

  /** An override given as an array replaces that list only; a non-array one is ignored. */
  lemma OverrideOneList(st: Storage, user: Who, sessions: seq<Json>)
    ensures var d := MergedData(st, user, Some(JObj([("workSessions", JArr(sessions))])));
      d.workSessions == JArr(sessions) && d.goals == MergedData(st, user, None).goals
    ensures MergedData(st, user, Some(JObj([("workSessions", JStr("x"))]))) == MergedData(st, user, None)
  {
  }

  // ---------------------------------------------------------------- the dialog

  /** The checkbox keys. */
  datatype SectionKey = WorkHours | Earnings | Expenses | Goals | Todos | Reminders

  /** `{ ...prev, [key]: !prev[key] }`. */
  function Flipped(s: Sections, key: SectionKey): (r: Sections)
  {
    match key
    case WorkHours => s.(workHours := !s.workHours)
    case Earnings => s.(earnings := !s.earnings)
    case Expenses => s.(expenses := !s.expenses)
    case Goals => s.(goals := !s.goals)
    case Todos => s.(todos := !s.todos)
    case Reminders => s.(reminders := !s.reminders)
  }

  function Ticked(s: Sections, key: SectionKey): bool
  {
    match key
    case WorkHours => s.workHours
    case Earnings => s.earnings
    case Expenses => s.expenses
    case Goals => s.goals
    case Todos => s.todos
    case Reminders => s.reminders
  }

  /** Toggling flips the one checkbox and leaves the other five; toggling twice restores the selection. */
  lemma FlippedFacts(s: Sections, key: SectionKey)
    ensures Ticked(Flipped(s, key), key) == !Ticked(s, key)
    ensures forall other :: other != key ==> Ticked(Flipped(s, key), other) == Ticked(s, other)
    ensures Flipped(Flipped(s, key), key) == s
  {
  }

  /** The default selection: work hours and earnings only. */
  const DefaultSections: Sections := Sections(true, true, false, false, false, false)

  /** The name in the report and the subject: `user?.name || user?.username || user?.email || "guest"`. */
  function DisplayName(user: Who): (r: string)
    ensures r != ""
    ensures user.name != "" ==> r == user.name
    ensures user.name == "" && user.username == "" && user.email == "" ==> r == "guest"
  {
    FirstNonEmptyNonEmpty([user.name, user.username, user.email], "guest");
    FirstNonEmpty([user.name, user.username, user.email], "guest")
  }

  /** What goes to the mail client. */
  datatype Mail = Mail(to: string, subject: string, body: string)

  /** The message for an address and a selection; `None` is the "Please enter an email address." alert. */
  function MailFor(email: string, user: Who, sel: Sections, data: Data, date: string, generated: string, today: string)
    : (m: Option<Mail>)
    ensures m.None? <==> IsBlank(email)
    ensures m.Some? ==> m.value.to == Trim(email) && m.value.to != ""
    ensures m.Some? ==> StartsWith(m.value.subject, "TaskFlow Export - " + DisplayName(user) + " - ")
  {
    var to := Trim(email);
    if to == [] then None
    else
      var subject := "TaskFlow Export - " + DisplayName(user) + " - " + date;
      assert subject[..|"TaskFlow Export - " + DisplayName(user) + " - "|] == "TaskFlow Export - " + DisplayName(user) + " - ";
      Some(Mail(to, subject, Report(DisplayName(user), sel, data, generated, today)))
  }

  /** The dialog's state; the storage and the override are what it reads. */
  class Dialog {
    var email: string
    var sections: Sections
    const user: Who
    const store: Storage
    const dataOverride: Option<Json>

    constructor(user: Who, store: Storage, dataOverride: Option<Json>)
      ensures email == "" && sections == DefaultSections
      ensures this.user == user && this.store == store && this.dataOverride == dataOverride
    {
      email := "";
      sections := DefaultSections;
      this.user := user;
      this.store := store;
      this.dataOverride := dataOverride;
    }

    function Shown(): Data
      reads this
    {
      MergedData(store, user, dataOverride)
    }

    method SetEmail(text: string)
      modifies this`email
      ensures email == text
    {
      email := text;
    }

    /** `toggle(key)`. */
    method Toggle(key: SectionKey)
      modifies this`sections
      ensures sections == Flipped(old(sections), key)
    {
      sections := Flipped(sections, key);
    }

    /**
     * `send`: nothing when the trimmed address is empty, otherwise the
     * message to that address with the report of the selected sections.
     * `date`, `generated` and `today` stand for the clock.
     */
    method Send(date: string, generated: string, today: string) returns (m: Option<Mail>)
      ensures m == MailFor(email, user, sections, Shown(), date, generated, today)
      ensures m.Some? ==> m.value.body == Report(DisplayName(user), sections, Shown(), generated, today)
    {
      var to := Trim(email);
      if to == [] {
        return None;
      }
      var name := DisplayName(user);
      var report := BuildEmailReport(name, sections, Shown(), generated, today);
      m := Some(Mail(to, "TaskFlow Export - " + name + " - " + date, report));
    }
  }
}
