/** The two per-tag counts the interface shows: the filter bar counts notes
    carrying a tag, the dashboard counts occurrences of the tag. They agree
    whenever no note repeats a tag, which the tag input guarantees. */
module TagConsistency {
  import opened Wrappers
  import opened Seqs
  import opened Counters
  import opened NoteModel
  import TagFilter
  import NoteForm

  /** No note lists a tag twice. */
  predicate TagsDuplicateFree(notes: seq<Note>) {
    forall i :: 0 <= i < |notes| ==> NoDup(TagsOf(notes[i]))
  }

  /** With no repeated tags within a note, the filter bar's count, the
      number of occurrences and the dashboard's tally agree for every
      tag. */
  lemma {:induction false} CountsAgree(notes: seq<Note>, tag: string)
    requires TagsDuplicateFree(notes)
    ensures TagFilter.TagCount(notes, tag) == Count(Occurrences(notes), tag)
    ensures Get(Tally(map[], Occurrences(notes)), tag) == Count(Occurrences(notes), tag)
  {
    TallyGet(map[], Occurrences(notes), tag);
    if notes != [] {
      var init, last := notes[..|notes| - 1], notes[|notes| - 1];
      assert notes == init + [last];
      assert TagsDuplicateFree(init) by {
        forall i | 0 <= i < |init| ensures NoDup(TagsOf(init[i])) {
          assert init[i] == notes[i];
        }
      }
      CountsAgree(init, tag);
      TagFilter.TagCountSnoc(init, last, tag);
      OccurrencesSnoc(init, last);
      CountConcat(Occurrences(init), TagsOf(last), tag);
      NoDupCount(TagsOf(last), tag);
    }
  }

  /** Tags edited through the tag input never repeat, so a note saved from
      the form keeps the counts in agreement. */
  lemma FormTagsKeepAgreement(notes: seq<Note>, n: Note, tag: string)
    requires TagsDuplicateFree(notes)
    requires n.tags.Some? ==> NoteForm.WellFormedTags(n.tags.value)
    ensures TagFilter.TagCount([n] + notes, tag) == Count(Occurrences([n] + notes), tag)
  {
    assert TagsDuplicateFree([n] + notes) by {
      forall i | 0 <= i < |[n] + notes| ensures NoDup(TagsOf(([n] + notes)[i])) {
        if i > 0 {
          assert ([n] + notes)[i] == notes[i - 1];
        }
      }
    }
    CountsAgree([n] + notes, tag);
  }

  /** Without that guarantee the counts differ: a single note tagged "a"
      twice counts once on the filter bar and twice on the dashboard. */
  lemma CountsDifferOnRepeatedTag()
    ensures var notes := [Note("1", "t", "c", Some(["a", "a"]), None)];
      TagFilter.TagCount(notes, "a") == 1 && Count(Occurrences(notes), "a") == 2
  {
    var n := Note("1", "t", "c", Some(["a", "a"]), None);
    var notes := [n];
    assert Occurrences(notes) == Occurrences([]) + TagsOf(n);
    assert ["a", "a"] == ["a"] + ["a"];
    CountSnoc(["a"], "a", "a");
    CountSnoc([], "a", "a");
    assert [] + ["a"] == ["a"];
    TagFilter.TagCountSnoc([], n, "a");
    assert [] + [n] == notes;
  }
}
