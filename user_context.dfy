/**
 * The user context (src/context/UserContext.tsx): the provider's state is
 * the journal of notes, the two onboarding selections and the
 * simplified-language switch. `addNote` prepends a note, `deleteNote` drops
 * every note with a given id, and the selection setters replace their list.
 */
module UserContext {
  import opened Common

  datatype Note = Note(
    id: string,
    title: string,
    content: string,
    physicistId: string,
    physicistName: string,
    timestamp: string)

  /** The two notes every session starts with. */
  const SeedNotes: seq<Note> := [
    Note("1", "Relativity Basics",
      "Time dilation occurs when two observers moving relative to each other measure different elapsed times for the same event. The faster an object moves, the more time slows down for it relative to a stationary observer.",
      "einstein", "Albert Einstein", "2025-05-19T14:32:00Z"),
    Note("2", "Newton's Laws Applications",
      "Every object continues in its state of rest, or of uniform motion in a straight line, unless compelled to change that state by forces impressed upon it. This explains why we feel pushed back when a car accelerates forward!",
      "newton", "Isaac Newton", "2025-05-18T10:15:00Z")
  ]

  /** `notes.filter(note => note.id !== noteId)`. */
  function WithoutId(notes: seq<Note>, noteId: string): (r: seq<Note>)
    ensures forall i :: 0 <= i < |r| ==> r[i].id != noteId
    ensures forall i :: 0 <= i < |r| ==> r[i] in notes
    ensures forall i :: 0 <= i < |notes| && notes[i].id != noteId ==> multiset(r)[notes[i]] == multiset(notes)[notes[i]]
  {
    Filter(notes, (n: Note) => n.id != noteId)
  }

  /** Deleting keeps the remaining notes in their relative order. */
  lemma DeleteKeepsOrder(front: seq<Note>, back: seq<Note>, noteId: string)
    ensures WithoutId(front + back, noteId) == WithoutId(front, noteId) + WithoutId(back, noteId)
  {
    FilterAppend(front, back, (n: Note) => n.id != noteId);
  }

  /** Deleting an id no note carries leaves the list as it is. */
  lemma DeleteAbsentIsIdentity(notes: seq<Note>, noteId: string)
    requires forall i :: 0 <= i < |notes| ==> notes[i].id != noteId
    ensures WithoutId(notes, noteId) == notes
  {
    FilterKeepsAll(notes, (n: Note) => n.id != noteId);
  }

  /** Deleting the same id twice is deleting it once. */
  lemma DeleteIsIdempotent(notes: seq<Note>, noteId: string)
    ensures WithoutId(WithoutId(notes, noteId), noteId) == WithoutId(notes, noteId)
  {
    DeleteAbsentIsIdentity(WithoutId(notes, noteId), noteId);
  }

  /** Deleting the id of a note just added removes it again, along with older notes of that id. */
  lemma DeleteUndoesAdd(note: Note, notes: seq<Note>)
    ensures WithoutId([note] + notes, note.id) == WithoutId(notes, note.id)
  {
    DeleteKeepsOrder([note], notes, note.id);
    assert WithoutId([note], note.id) == [];
  }

  lemma SeedNotesShape()
    ensures |SeedNotes| == 2 && SeedNotes[0].id == "1" && SeedNotes[1].id == "2"
    ensures SeedNotes[0].physicistId == "einstein" && SeedNotes[1].physicistId == "newton"
  {
  }

  /** The provider's state. */
  class UserProvider {
    var selectedInterests: seq<string>
    var selectedPhysicists: seq<string>
    var useSimplifiedLanguage: bool
    var notes: seq<Note>

    constructor ()
      ensures selectedInterests == [] && selectedPhysicists == []
      ensures !useSimplifiedLanguage
      ensures notes == SeedNotes
    {
      selectedInterests := [];
      selectedPhysicists := [];
      useSimplifiedLanguage := false;
      notes := SeedNotes;
    }

    /** `addNote`: the new note goes first, the others follow in their old order. */
    method AddNote(note: Note)
      modifies this`notes
      ensures notes == [note] + old(notes)
      ensures |notes| == |old(notes)| + 1 && notes[1..] == old(notes)
    {
      notes := [note] + notes;
    }

    /** `deleteNote`: exactly the notes with this id go. */
    method DeleteNote(noteId: string)
      modifies this`notes
      ensures notes == WithoutId(old(notes), noteId)
    {
      notes := WithoutId(notes, noteId);
    }

    method SetSelectedInterests(interests: seq<string>)
      modifies this`selectedInterests
      ensures selectedInterests == interests
    {
      selectedInterests := interests;
    }

    method SetSelectedPhysicists(physicistIds: seq<string>)
      modifies this`selectedPhysicists
      ensures selectedPhysicists == physicistIds
    {
      selectedPhysicists := physicistIds;
    }

    method SetUseSimplifiedLanguage(use: bool)
      modifies this`useSimplifiedLanguage
      ensures useSimplifiedLanguage == use
    {
      useSimplifiedLanguage := use;
    }
  }
}
