/** A note as the client holds it, and the tag views every component derives
    from the note list. */
module NoteModel {
  import opened Wrappers
  import opened Seqs
  import opened Text

  /** A row of the `notes` table. `tags` and `created_at` may be missing
      (`null`/`undefined`) on rows the backend hands back; the embedding
      column is not part of this model. */
  datatype Note = Note(
    id: string,
    title: string,
    content: string,
    tags: Option<seq<string>>,
    createdAt: Option<string>)

  /** `note.tags || []`. */
  function TagsOf(n: Note): seq<string> {
    n.tags.GetOr([])
  }

  /** `(note.tags || []).includes(tag)`. */
  predicate HasTag(n: Note, tag: string) {
    tag in TagsOf(n)
  }

  /** Every tag of every note, note by note, each note's tags in order, with
      repetitions: the order in which the nested `forEach` loops visit them. */
  function Occurrences(notes: seq<Note>): seq<string> {
    if notes == [] then [] else Occurrences(notes[..|notes| - 1]) + TagsOf(notes[|notes| - 1])
  }

  /** `notes.filter(note => (note.tags || []).includes(tag))`. */
  function WithTag(notes: seq<Note>, tag: string): seq<Note> {
    Filter(notes, (n: Note) => HasTag(n, tag))
  }

  /** A selected tag is in effect iff it is truthy: `null` and `""` both
      mean "no selection". */
  predicate IsSelected(selected: Option<string>) {
    selected.Some? && Truthy(selected.value)
  }

  /** `selectedTag ? notes.filter(...) : notes`, shared by the tag filter and
      by both notes lists. */
  function FilteredNotes(notes: seq<Note>, selected: Option<string>): seq<Note> {
    if IsSelected(selected) then WithTag(notes, selected.value) else notes
  }

  // ---------------------------------------------------------------------------

  lemma {:induction false} OccurrencesSnoc(notes: seq<Note>, n: Note)
    ensures Occurrences(notes + [n]) == Occurrences(notes) + TagsOf(n)
  {
    assert (notes + [n])[..|notes + [n]| - 1] == notes;
  }

  /** A tag occurs iff some note carries it. */
  lemma {:induction false} OccurrencesMembership(notes: seq<Note>, t: string)
    ensures t in Occurrences(notes) <==> exists i :: 0 <= i < |notes| && HasTag(notes[i], t)
  {
    if notes != [] {
      var init, last := notes[..|notes| - 1], notes[|notes| - 1];
      OccurrencesMembership(init, t);
      if t in Occurrences(init) {
        var i :| 0 <= i < |init| && HasTag(init[i], t);
        assert notes[i] == init[i];
      }
      if exists i :: 0 <= i < |notes| && HasTag(notes[i], t) {
        var i :| 0 <= i < |notes| && HasTag(notes[i], t);
        if i < |init| {
          assert init[i] == notes[i];
        }
      }
    }
  }

  /** With no tag selected every note is shown; with tag `t` selected,
      exactly the notes carrying `t` are shown, each as often as in `notes`,
      in their original order. */
  lemma FilteredNotesSpec(notes: seq<Note>, selected: Option<string>, n: Note)
    ensures !IsSelected(selected) ==> FilteredNotes(notes, selected) == notes
    ensures IsSelected(selected) ==>
      var r := FilteredNotes(notes, selected);
      && IsSubseq(r, notes)
      && (n in r <==> n in notes && HasTag(n, selected.value))
      && Count(r, n) == if HasTag(n, selected.value) then Count(notes, n) else 0
  {
    if IsSelected(selected) {
      var p := (m: Note) => HasTag(m, selected.value);
      FilterIsSubseq(notes, p);
      FilterMembership(notes, p, n);
      FilterCount(notes, p, n);
    }
  }
}
