/** The older notes list: the same filter and the same render precedence as
    the newer one (`NotesList.Render`), every note shown in full, and a
    Delete button that deletes at once. */
module LegacyNotesList {
  import opened Wrappers
  import opened Seqs
  import opened NoteModel
  import opened NotesContext
  import NotesList

  /** Once loaded without error, the older list shows every note when no
      tag is selected, and otherwise only notes that carry the tag, each
      in the order the store holds them. */
  lemma RenderedNotes(error: Option<string>, notes: seq<Note>, selected: Option<string>)
    requires !NotesList.TruthyError(error)
    ensures !IsSelected(selected) && notes != [] ==>
      NotesList.Render(false, error, notes, selected) == NotesList.ListView(notes)
    ensures !IsSelected(selected) && notes == [] ==>
      NotesList.Render(false, error, notes, selected) == NotesList.EmptyView
    ensures var v := NotesList.Render(false, error, notes, selected);
      IsSelected(selected) && v.ListView? ==>
        && IsSubseq(v.shown, notes)
        && forall i :: 0 <= i < |v.shown| ==> HasTag(v.shown[i], selected.value)
  {
    if IsSelected(selected) {
      var p := (n: Note) => HasTag(n, selected.value);
      FilterIsSubseq(notes, p);
      var shown := Filter(notes, p);
      forall i | 0 <= i < |shown| ensures HasTag(shown[i], selected.value) {
        assert shown[i] in shown;
      }
    }
  }

  /** The older Delete button: the store's delete runs at once, with no
      confirmation, and its failure is not caught (it is returned here).
      Compared with `NotesList.ListState.HandleDelete` there is no
      confirmation and no expanded note to reset. */
  method ClickDelete(noteId: string, store: NotesStore, remove: string -> Option<string>)
    returns (uncaught: Option<string>)
    modifies store
    ensures uncaught == remove(noteId)
    ensures uncaught.None? ==> store.notes == RemoveById(old(store.notes), noteId)
    ensures uncaught.Some? ==> store.notes == old(store.notes)
  {
    uncaught := store.DeleteNote(noteId, remove);
  }
}
