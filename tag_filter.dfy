/** The tag filter bar: the list of distinct tags collected from the notes,
    the "All" and per-tag buttons with their note counts, and the status line
    under them. */
module TagFilter {
  import opened Wrappers
  import opened Seqs
  import opened Text
  import opened NoteModel

  /** The tag list: every note's tags, note by note, added into a `Set`
      and read back in insertion order. */
  method CollectTags(notes: seq<Note>) returns (tags: seq<string>)
    ensures tags == Dedup(Occurrences(notes))
    ensures NoDup(tags)
    ensures forall t :: t in tags <==> exists i :: 0 <= i < |notes| && HasTag(notes[i], t)
  {
    tags := [];
    var i := 0;
    while i < |notes|
      invariant 0 <= i <= |notes|
      invariant tags == Dedup(Occurrences(notes[..i]))
    {
      tags := AddEach(tags, Occurrences(notes[..i]), TagsOf(notes[i]));
      assert notes[..i + 1] == notes[..i] + [notes[i]];
      OccurrencesSnoc(notes[..i], notes[i]);
      i := i + 1;
    }
    assert notes[..i] == notes;
    forall t ensures t in tags <==> exists k :: 0 <= k < |notes| && HasTag(notes[k], t) {
      ListedIffCarried(notes, t);
    }
  }

  /** The inner `forEach`: add each of `items` into the set that holds the
      distinct values of `before`. */
  method AddEach(distinct: seq<string>, ghost before: seq<string>, items: seq<string>) returns (r: seq<string>)
    requires distinct == Dedup(before)
    ensures r == Dedup(before + items)
  {
    r := distinct;
    var j := 0;
    assert before + items[..0] == before;
    while j < |items|
      invariant 0 <= j <= |items|
      invariant r == Dedup(before + items[..j])
    {
      DedupPrefixStep(before, items, j);
      if items[j] !in r {
        r := r + [items[j]];
      }
      j := j + 1;
    }
    assert items[..j] == items;
  }

  /** One more item read: the set gains it unless it already holds it. */
  lemma DedupPrefixStep(before: seq<string>, items: seq<string>, j: nat)
    requires j < |items|
    ensures var d := Dedup(before + items[..j]);
      Dedup(before + items[..j + 1]) == if items[j] in d then d else d + [items[j]]
  {
    assert before + items[..j + 1] == (before + items[..j]) + [items[j]];
    DedupSnoc(before + items[..j], items[j]);
  }

  /** A tag is listed iff some note carries it. */
  lemma ListedIffCarried(notes: seq<Note>, t: string)
    ensures t in Dedup(Occurrences(notes)) <==> exists i :: 0 <= i < |notes| && HasTag(notes[i], t)
  {
    OccurrencesMembership(notes, t);
    DedupMembership(Occurrences(notes), t);
  }

  /** A value is in the de-duplicated sequence iff it is in the sequence. */
  lemma DedupMembership(s: seq<string>, t: string)
    ensures t in Dedup(s) <==> t in s
  {
    if t in s {
      var k :| 0 <= k < |s| && s[k] == t;
    }
  }

  /** The tag list follows the order in which tags first appear, reading the
      notes in order and each note's tags in order. */
  lemma TagsInFirstAppearanceOrder(notes: seq<Note>, i: nat, j: nat)
    requires i < j < |Dedup(Occurrences(notes))|
    ensures var tags := Dedup(Occurrences(notes));
      FirstIndex(Occurrences(notes), tags[i]) < FirstIndex(Occurrences(notes), tags[j])
  {
    DedupFirstAppearanceOrder(Occurrences(notes), i, j);
  }

  /** The count on a tag's button: the number of notes carrying the tag. */
  function TagCount(notes: seq<Note>, tag: string): (n: nat)
    ensures n <= |notes|
  {
    |WithTag(notes, tag)|
  }

  /** A note whose tag list holds the tag twice still counts once: the count
      moves by at most one per note. */
  lemma {:induction false} TagCountSnoc(notes: seq<Note>, n: Note, tag: string)
    ensures TagCount(notes + [n], tag) == TagCount(notes, tag) + if HasTag(n, tag) then 1 else 0
  {
    FilterSnoc(notes, n, (m: Note) => HasTag(m, tag));
  }

  /** A tag is counted in some note iff it is on the list, so every listed
      tag shows a count of at least one. */
  lemma {:induction false} TagCountPositive(notes: seq<Note>, tag: string)
    ensures TagCount(notes, tag) >= 1 <==> tag in Dedup(Occurrences(notes))
  {
    OccurrencesMembership(notes, tag);
    DedupMembership(Occurrences(notes), tag);
    var p := (m: Note) => HasTag(m, tag);
    if exists i :: 0 <= i < |notes| && HasTag(notes[i], tag) {
      var i :| 0 <= i < |notes| && HasTag(notes[i], tag);
      FilterMembership(notes, p, notes[i]);
    }
    if TagCount(notes, tag) >= 1 {
      var r := WithTag(notes, tag);
      assert r[0] in r;
      var i :| 0 <= i < |notes| && notes[i] == r[0];
    }
  }

  /** The count on the "All" button. */
  function AllCount(notes: seq<Note>): (n: nat)
    ensures n == |FilteredNotes(notes, None)|
  {
    |notes|
  }

  /** The filter buttons. */
  datatype FilterButton = AllButton | TagButton(tag: string)

  /** The selection a click leaves. */
  function Click(b: FilterButton): (selected: Option<string>)
    ensures b.AllButton? <==> selected.None?
    ensures b.TagButton? ==> selected == Some(b.tag)
  {
    match b
    case AllButton => None
    case TagButton(tag) => Some(tag)
  }

  /** After clicking "All" every note is shown; after clicking a tag the
      notes shown are those its button counted. */
  lemma ClickThenFilter(notes: seq<Note>, b: FilterButton)
    ensures b.AllButton? ==> FilteredNotes(notes, Click(b)) == notes
    ensures b.TagButton? && b.tag != "" ==>
      |FilteredNotes(notes, Click(b))| == TagCount(notes, b.tag)
  {
  }

  /** Whether a button is shown as the active one. */
  predicate IsActive(b: FilterButton, selected: Option<string>) {
    match b
    case AllButton => !IsSelected(selected)
    case TagButton(tag) => selected == Some(tag)
  }

  /** The status line: how many notes are shown, the noun used, and the
      selected tag. */
  datatype Status = Status(shown: nat, noun: string, tag: string)

  function StatusLine(notes: seq<Note>, selected: Option<string>): (s: Option<Status>)
    ensures s.Some? <==> IsSelected(selected)
    ensures s.Some? ==>
      && s.value.tag == selected.value
      && s.value.shown == TagCount(notes, selected.value)
      && (s.value.noun == "note" <==> s.value.shown == 1)
  {
    if IsSelected(selected) then
      var shown := |FilteredNotes(notes, selected)|;
      Some(Status(shown, if shown != 1 then "notes" else "note", selected.value))
    else None
  }
}
