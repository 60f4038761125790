/**
 * The note form: title, content, colour, and an optional password. A note
 * needs both a title and content; the password is kept only when the note
 * is protected.
 */
module NotesPage {
  import opened Wrappers
  import opened Strings
  import opened Json
  import opened NotesContext

  const Colors: seq<string> := ["#FFF4B8", "#E8F0FF", "#F6E9FF", "#E9FFF1", "#F1F1F1", "#FFEFD9"]

  /** A note record with the five fields the form fills in, in the form's order. */
  function NoteRecord(title: Json, content: Json, color: Json, protect: Json, password: Json)
    : (r: seq<(string, Json)>)
    ensures Lookup(r, "title") == Some(title) && Lookup(r, "content") == Some(content)
    ensures Lookup(r, "color") == Some(color) && Lookup(r, "protect") == Some(protect)
    ensures Lookup(r, "password") == Some(password)
    ensures UniqueKeys(r) && Lookup(r, "id").None? && Lookup(r, "createdAt").None?
  {
    var r := [("title", title), ("content", content), ("color", color), ("protect", protect), ("password", password)];
    assert UniqueKeys(r) by { KeysByShape(r); }
    assert Lookup(r, "id").None? && Lookup(r, "createdAt").None?;
    assert Lookup(r, "title") == Some(title) && Lookup(r, "content") == Some(content)
      && Lookup(r, "color") == Some(color) && Lookup(r, "protect") == Some(protect)
      && Lookup(r, "password") == Some(password) by {
      LookupUnique(r);
      assert r[0].0 == "title" && r[1].0 == "content" && r[2].0 == "color";
      assert r[3].0 == "protect" && r[4].0 == "password";
    }
    r
  }

  /** What the form holds: the inputs' text, the chosen colour and the protection switch. */
  datatype Draft = Draft(title: string, content: string, color: string, protect: bool, password: string)

  /** The form's initial values. */
  const EmptyDraft: Draft := Draft("", "", Colors[0], false, "")

  /** The record `onCreate` passes to `addNote`. */
  function NoteFields(d: Draft): seq<(string, Json)>
  {
    NoteRecord(JStr(Trim(d.title)), JStr(Trim(d.content)), JStr(d.color), JBool(d.protect),
               JStr(if d.protect then d.password else ""))
  }

  /** The note `onCreate` builds holds the trimmed title and content, and the password only when protected. */
  lemma NoteFieldsRead(d: Draft)
    ensures var r := NoteFields(d);
      && Lookup(r, "title") == Some(JStr(Trim(d.title)))
      && Lookup(r, "content") == Some(JStr(Trim(d.content)))
      && Lookup(r, "color") == Some(JStr(d.color))
      && Lookup(r, "protect") == Some(JBool(d.protect))
      && Lookup(r, "password") == Some(JStr(if d.protect then d.password else ""))
      && UniqueKeys(r) && Lookup(r, "id").None? && Lookup(r, "createdAt").None?
  {
  }

  /** An unprotected note never stores a password, whatever was typed. */
  lemma UnprotectedHasNoPassword(d: Draft, id: string, createdAt: string)
    requires !d.protect
    ensures Lookup(Stamped(NoteFields(d), id, createdAt), "password") == Some(JStr(""))
  {
    NoteFieldsRead(d);
  }

  class NoteForm {
    var draft: Draft
    var open: bool
    const list: NoteList

    constructor(list: NoteList)
      ensures this.list == list && !open && draft == EmptyDraft
    {
      this.list := list;
      draft := EmptyDraft;
      open := false;
    }

    /** `reset`: the five fields back to their initial values. */
    method Reset()
      modifies this
      ensures draft == EmptyDraft && open == old(open)
    {
      draft := EmptyDraft;
    }

    /**
     * `onCreate`: unless both the trimmed title and content are non-empty
     * nothing changes; otherwise the note is added in front, the form reset and closed.
     */
    method OnCreate(id: string, createdAt: string)
      modifies this, list
      ensures IsBlank(old(draft.title)) || IsBlank(old(draft.content)) ==>
        list.notes == old(list.notes) && draft == old(draft) && open == old(open)
      ensures !IsBlank(old(draft.title)) && !IsBlank(old(draft.content)) ==>
        && list.notes == [JObj(Stamped(NoteFields(old(draft)), id, createdAt))] + old(list.notes)
        && draft == EmptyDraft && !open
    {
      if IsBlank(draft.title) || IsBlank(draft.content) {
        return;
      }
      list.AddNote(NoteFields(draft), id, createdAt);
      Reset();
      open := false;
    }
  }
}
