/**
 * The note editor (src/components/NoteEditor.tsx): it holds a draft title and
 * content, and its save handler adds a note to the user context and then
 * tells its parent, unless the trimmed title or content is empty.
 *
 * The clock is a parameter: `Date.now().toString()` arrives as `noteId`, and
 * `new Date().toISOString()` as `timestamp`.
 */
module NoteEditor {
  import opened Common
  import opened PhysicistCatalog
  import opened UserContext

  /** The optional `initialNote` prop. */
  datatype Draft = Draft(title: string, content: string)

  /** What a save does, in order: the note handed to `addNote`, then the `onSave` callback. */
  datatype EditorEvent = NoteAdded(note: Note) | SaveCallback

  /** `physicists.find(p => p.id === physicistId)?.name || "Unknown"`. */
  function PhysicistName(catalog: seq<Physicist>, physicistId: string): (name: string)
    ensures (forall i :: 0 <= i < |catalog| ==> catalog[i].id != physicistId) ==> name == "Unknown"
    ensures name != "Unknown" ==> exists i :: 0 <= i < |catalog| && catalog[i].id == physicistId && catalog[i].name == name
    ensures forall i :: (0 <= i < |catalog| && catalog[i].id == physicistId && catalog[i].name != ""
      && (forall j :: 0 <= j < i ==> catalog[j].id != physicistId)) ==> name == catalog[i].name
    ensures forall i :: (0 <= i < |catalog| && catalog[i].id == physicistId && catalog[i].name == ""
      && (forall j :: 0 <= j < i ==> catalog[j].id != physicistId)) ==> name == "Unknown"
  {
    match Find(catalog, (p: Physicist) => p.id == physicistId)
    case Some(p) => if p.name != "" then p.name else "Unknown"
    case None => "Unknown"
  }

  /** The save guard: both trimmed fields are non-empty. */
  predicate CanSave(title: string, content: string) {
    Trim(title) != "" && Trim(content) != ""
  }

  /** A save is refused exactly when the title or the content is nothing but white space. */
  lemma CanSaveIffVisibleText(title: string, content: string)
    ensures CanSave(title, content) <==>
      (exists i :: 0 <= i < |title| && !IsSpace(title[i])) && (exists j :: 0 <= j < |content| && !IsSpace(content[j]))
  {
  }

  /** The note a successful save adds. */
  function SavedNote(catalog: seq<Physicist>, physicistId: string, title: string, content: string,
                     noteId: string, timestamp: string): (note: Note)
    ensures note.id == noteId && note.physicistId == physicistId && note.timestamp == timestamp
    ensures note.title == Trim(title) && note.content == Trim(content)
    ensures note.physicistName == PhysicistName(catalog, physicistId)
  {
    Note(noteId, Trim(title), Trim(content), physicistId, PhysicistName(catalog, physicistId), timestamp)
  }

  /** A saved note starts and ends with visible text in both its title and its content. */
  lemma SavedNoteIsTrimmed(catalog: seq<Physicist>, physicistId: string, title: string, content: string,
                           noteId: string, timestamp: string)
    requires CanSave(title, content)
    ensures var n := SavedNote(catalog, physicistId, title, content, noteId, timestamp);
      n.title != "" && !IsSpace(n.title[0]) && !IsSpace(n.title[|n.title| - 1])
      && n.content != "" && !IsSpace(n.content[0]) && !IsSpace(n.content[|n.content| - 1])
  {
  }

  class NoteEditor {
    const physicistId: string
    var title: string
    var content: string

    /** The draft starts from `initialNote`, or empty. */
    constructor (physicistId: string, initialNote: Option<Draft>)
      ensures this.physicistId == physicistId
      ensures title == (if initialNote.Some? then initialNote.value.title else "")
      ensures content == (if initialNote.Some? then initialNote.value.content else "")
    {
      this.physicistId := physicistId;
      title := if initialNote.Some? && initialNote.value.title != "" then initialNote.value.title else "";
      content := if initialNote.Some? && initialNote.value.content != "" then initialNote.value.content else "";
    }

    method SetTitle(value: string)
      modifies this`title
      ensures title == value
    {
      title := value;
    }

    method SetContent(value: string)
      modifies this`content
      ensures content == value
    {
      content := value;
    }

    /** `handleSave`: either nothing happens, or one note is added and then `onSave` runs. */
    method HandleSave(user: UserProvider, catalog: seq<Physicist>, noteId: string, timestamp: string)
      returns (events: seq<EditorEvent>)
      modifies user`notes
      ensures !CanSave(title, content) ==> events == [] && user.notes == old(user.notes)
      ensures CanSave(title, content) ==>
        var note := SavedNote(catalog, physicistId, title, content, noteId, timestamp);
        events == [NoteAdded(note), SaveCallback] && user.notes == [note] + old(user.notes)
    {
      if Trim(title) == "" || Trim(content) == "" {
        return [];
      }
      var note := Note(noteId, Trim(title), Trim(content), physicistId, PhysicistName(catalog, physicistId), timestamp);
      user.AddNote(note);
      events := [NoteAdded(note)];
      events := events + [SaveCallback];
    }
  }
}
