/**
 * The learning journal page (src/pages/Journal.tsx): the notes shown under
 * the active tab, and the empty-journal panel.
 */
module Journal {
  import opened Common
  import opened UserContext

  const AllTab := "all"

  /** `activeTab === "all" ? notes : notes.filter(note => note.physicistId === activeTab)`. */
  function FilteredNotes(notes: seq<Note>, activeTab: string): (r: seq<Note>)
    ensures activeTab == AllTab ==> r == notes
    ensures activeTab != AllTab ==> forall i :: 0 <= i < |r| ==> r[i].physicistId == activeTab
    ensures forall i :: 0 <= i < |r| ==> r[i] in notes
    // no note of the tab's physicist is dropped, nor duplicated
    ensures forall i :: 0 <= i < |notes| && notes[i].physicistId == activeTab ==>
      multiset(r)[notes[i]] == multiset(notes)[notes[i]]
  {
    if activeTab == AllTab then notes else Filter(notes, (n: Note) => n.physicistId == activeTab)
  }

  /** The filtered notes appear in the order of the journal. */
  lemma FilteredNotesKeepOrder(front: seq<Note>, back: seq<Note>, activeTab: string)
    ensures FilteredNotes(front + back, activeTab) == FilteredNotes(front, activeTab) + FilteredNotes(back, activeTab)
  {
    if activeTab != AllTab {
      FilterAppend(front, back, (n: Note) => n.physicistId == activeTab);
    }
  }

  /** The empty-journal panel is shown instead of the note cards. */
  predicate ShowsEmptyJournal(notes: seq<Note>, activeTab: string) {
    |FilteredNotes(notes, activeTab)| == 0
  }

  /** The panel shows exactly when the tab has no note at all. */
  lemma EmptyJournalIff(notes: seq<Note>, activeTab: string)
    ensures ShowsEmptyJournal(notes, activeTab) <==>
      if activeTab == AllTab then notes == []
      else forall i :: 0 <= i < |notes| ==> notes[i].physicistId != activeTab
  {
    if activeTab != AllTab && !ShowsEmptyJournal(notes, activeTab) {
      var r := FilteredNotes(notes, activeTab);
      assert r[0] in notes;
    }
    if activeTab != AllTab && ShowsEmptyJournal(notes, activeTab) {
      forall i | 0 <= i < |notes| ensures notes[i].physicistId != activeTab {
        assert notes[i] in multiset(notes);
      }
    }
  }
}
