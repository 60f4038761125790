/**
 * The reminders context: reminders `{id, text, type, date, handled, createdAt}`
 * kept newest first under "taskflow_reminders_v1", with the per-date view the
 * home page shows (newest first).
 */
module RemindersContext {
  import opened Wrappers
  import opened Strings
  import opened Lists
  import opened Sorting

  const StorageKey: string := "taskflow_reminders_v1"
  const DefaultType: string := "Reminder"

  /** `createdAt` is the creation time in milliseconds. */
  datatype Reminder = Reminder(id: string, text: string, kind: string, date: string, handled: bool, createdAt: int)

  function ReminderId(r: Reminder): string { r.id }

  function CreatedAt(r: Reminder): int { r.createdAt }

  /** `{ ...r, handled: !r.handled }`. */
  function FlipHandled(r: Reminder): (x: Reminder)
    ensures x.handled == !r.handled && x.(handled := r.handled) == r
  {
    r.(handled := !r.handled)
  }

  /**
   * The two ways `addReminder` is called: with the text, an optional type and
   * an optional date, or with one object whose `text`/`title`, `type` and
   * `date`/`dateISO` fields may each be missing (`None` is a missing or null
   * field, or an argument left out).
   */
  datatype Request =
    | Positional(text: string, kind: Option<string>, date: Option<string>)
    | Fields(textField: Option<string>, title: Option<string>, typeField: Option<string>,
             dateField: Option<string>, dateIso: Option<string>)

  /** What a request asks for once the defaults are applied: text, type and date. */
  datatype Resolved = Resolved(text: string, kind: string, date: string)

  /**
   * The argument handling of `addReminder`: the object form takes `text ?? title ?? ""`,
   * `type ?? "Reminder"` and `date ?? dateISO ?? today`; the positional form
   * defaults a missing type to "Reminder" and a missing date to today.
   */
  function Resolve(req: Request, today: string): (r: Resolved)
    ensures req.Positional? ==> r.text == req.text
    ensures req.Fields? && req.textField.Some? ==> r.text == req.textField.value
    ensures req.Fields? && req.textField.None? && req.title.Some? ==> r.text == req.title.value
    ensures req.Fields? && req.textField.None? && req.title.None? ==> r.text == ""
    ensures req.Positional? && req.kind.Some? ==> r.kind == req.kind.value
    ensures req.Fields? && req.typeField.Some? ==> r.kind == req.typeField.value
    ensures (if req.Positional? then req.kind.None? else req.typeField.None?) ==> r.kind == DefaultType
    ensures req.Positional? ==> r.date == req.date.GetOr(today)
    ensures req.Fields? && req.dateField.Some? ==> r.date == req.dateField.value
    ensures req.Fields? && req.dateField.None? && req.dateIso.Some? ==> r.date == req.dateIso.value
    ensures req.Fields? && req.dateField.None? && req.dateIso.None? ==> r.date == today
  {
    match req
    case Positional(text, kind, date) => Resolved(text, kind.GetOr(DefaultType), date.GetOr(today))
    case Fields(text, title, kind, date, dateIso) =>
      Resolved(OrElse(text, title).GetOr(""), kind.GetOr(DefaultType), OrElse(date, dateIso).GetOr(today))
  }

  /** `addReminder`: nothing for blank text, else an unhandled reminder with the trimmed text in front. */
  function Added(rs: seq<Reminder>, req: Request, today: string, id: string, createdAt: int): (r: seq<Reminder>)
    ensures IsBlank(Resolve(req, today).text) ==> r == rs
    ensures !IsBlank(Resolve(req, today).text) ==> |r| == |rs| + 1 && r[1..] == rs
    ensures !IsBlank(Resolve(req, today).text) ==>
      && r[0].id == id && r[0].text == Trim(Resolve(req, today).text) && r[0].text != []
      && r[0].kind == Resolve(req, today).kind && r[0].date == Resolve(req, today).date
      && !r[0].handled && r[0].createdAt == createdAt
  {
    var a := Resolve(req, today);
    if IsBlank(a.text) then rs
    else [Reminder(id, Trim(a.text), a.kind, a.date, false, createdAt)] + rs
  }

  /** `removeReminder`. */
  function Removed(rs: seq<Reminder>, id: string): (r: seq<Reminder>)
    ensures forall k :: 0 <= k < |r| ==> r[k].id != id && r[k] in rs
    ensures forall k :: 0 <= k < |rs| && rs[k].id != id ==> rs[k] in r
  {
    WithoutId(rs, id, ReminderId)
  }

  /** `toggleHandled`: `handled` flipped on the reminders with that id, all else kept. */
  function Toggled(rs: seq<Reminder>, id: string): (r: seq<Reminder>)
    ensures |r| == |rs|
    ensures forall k :: 0 <= k < |rs| ==>
      r[k].handled == (if rs[k].id == id then !rs[k].handled else rs[k].handled)
      && r[k].(handled := rs[k].handled) == rs[k]
  {
    UpdateId(rs, id, ReminderId, FlipHandled)
  }

  lemma ToggleTwice(rs: seq<Reminder>, id: string)
    ensures Toggled(Toggled(rs, id), id) == rs
  {
    UpdateIdTwice(rs, id, ReminderId, FlipHandled);
  }

  /** Removing a reminder just added under a fresh id restores the list. */
  lemma RemoveUndoesAdd(rs: seq<Reminder>, req: Request, today: string, id: string, createdAt: int)
    requires forall k :: 0 <= k < |rs| ==> rs[k].id != id
    ensures Removed(Added(rs, req, today, id, createdAt), id) == rs
  {
    var a := Resolve(req, today);
    if !IsBlank(a.text) {
      WithoutFreshHead(Reminder(id, Trim(a.text), a.kind, a.date, false, createdAt), rs, ReminderId);
    } else {
      assert WithoutId(rs, id, ReminderId) == rs;
    }
  }

  function OnDate(date: string): Reminder -> bool
  {
    (r: Reminder) => r.date == date
  }

  /**
   * `remindersForDate`: the reminders of that date, newest first; the sort is
   * stable, so reminders created at the same moment keep the list's order.
   */
  function ForDate(rs: seq<Reminder>, date: string): (r: seq<Reminder>)
    ensures forall x :: x in r <==> x in rs && x.date == date
    ensures multiset(r) == multiset(Filter(rs, OnDate(date)))
    ensures SortedBy(r, CreatedAt, Descending)
  {
    var on := Filter(rs, OnDate(date));
    DescendingIsStrictTotal();
    SortSorted(on, CreatedAt, Descending);
    var r := SortBy(on, CreatedAt, Descending);
    assert forall x :: x in r <==> x in on by {
      forall x ensures x in r <==> x in on {
        assert x in r <==> x in multiset(r);
        assert x in on <==> x in multiset(on);
      }
    }
    r
  }

  /** Reminders created at the same moment come out in the order the list holds them. */
  lemma ForDateKeepsTies(rs: seq<Reminder>, date: string, at: int)
    ensures WithKey(ForDate(rs, date), CreatedAt, at) == WithKey(Filter(rs, OnDate(date)), CreatedAt, at)
  {
    SortStable(Filter(rs, OnDate(date)), CreatedAt, Descending, at);
  }

  /** The reminders context: the list, newest first. */
  class ReminderList {
    var reminders: seq<Reminder>

    /** Loading: the stored list, or `[]` when the key is absent, empty or unreadable (`saved` is `None`). */
    constructor(saved: Option<seq<Reminder>>)
      ensures reminders == saved.GetOr([])
    {
      reminders := saved.GetOr([]);
    }

    method AddReminder(req: Request, today: string, id: string, createdAt: int)
      modifies this
      ensures reminders == Added(old(reminders), req, today, id, createdAt)
    {
      reminders := Added(reminders, req, today, id, createdAt);
    }

    method RemoveReminder(id: string)
      modifies this
      ensures reminders == Removed(old(reminders), id)
    {
      reminders := Removed(reminders, id);
    }

    method ToggleHandled(id: string)
      modifies this
      ensures reminders == Toggled(old(reminders), id)
    {
      reminders := Toggled(reminders, id);
    }
  }
}
