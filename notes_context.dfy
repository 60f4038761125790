/** The note list, kept newest first under "taskflow_notes_v1". */
module NotesContext {
  import opened Wrappers
  import opened Json
  import opened Lists

  const NotesKey: string := "taskflow_notes_v1"

  /** What the list reads as after it has been saved: the same notes. */
  lemma ReloadAfterSave(st: Storage, notes: seq<Json>)
    ensures StoredList(SetItem(st, NotesKey, JArr(notes)), NotesKey) == notes
  {
    SafeParseOfSet(st, NotesKey, JArr(notes), JArr([]));
  }

  class NoteList {
    var notes: seq<Json>

    /** Loading: a malformed or absent store is the empty list. */
    constructor(st: Storage)
      ensures notes == StoredList(st, NotesKey)
      ensures NotesKey !in st || !st[NotesKey].Doc? ==> notes == []
    {
      notes := StoredList(st, NotesKey);
    }

    /** The save effect: the list written under its key. */
    function Saved(st: Storage): (r: Storage)
      reads this
      ensures StoredList(r, NotesKey) == notes
    {
      ReloadAfterSave(st, notes);
      SetItem(st, NotesKey, JArr(notes))
    }

    /** `addNote`: one note more, in front, with the caller's fields and a fresh id and creation time. */
    method AddNote(note: seq<(string, Json)>, id: string, createdAt: string)
      modifies this
      ensures notes == [JObj(Stamped(note, id, createdAt))] + old(notes)
    {
      notes := [JObj(Stamped(note, id, createdAt))] + notes;
    }

    /** `removeNote`: every note with that id goes, the rest keep their order. */
    method RemoveNote(id: string)
      modifies this
      ensures notes == WithoutId(old(notes), Some(JStr(id)), RecordId)
    {
      notes := WithoutId(notes, Some(JStr(id)), RecordId);
    }
  }
}
