/** The locally stored analytics: counters of notes created per day, of AI
    feature uses and of tag uses, with the two updaters the provider offers.
    Reading and writing browser storage and JSON are parameters: the stored
    text, and a parser from text to an analytics value. */
module AnalyticsContext {
  import opened Wrappers
  import opened Seqs
  import opened Text
  import opened Counters

  /** The analytics object. `tagCounts` may be missing from a stored
      object; the updaters and the older dashboard read a missing one as
      empty. */
  datatype Analytics = Analytics(
    notesCreated: map<string, nat>,
    aiUsage: map<string, nat>,
    tagCounts: Option<map<string, nat>>)

  /** No notes, the three AI features at zero, no tags. */
  function DefaultAnalytics(): (a: Analytics)
    ensures a.notesCreated == map[] && a.tagCounts == Some(map[])
    ensures a.aiUsage.Keys == {"summarize", "autoTitle", "generate"}
    ensures forall k :: Get(a.aiUsage, k) == 0
  {
    Analytics(map[], map["summarize" := 0, "autoTitle" := 0, "generate" := 0], Some(map[]))
  }

  /** `loadAnalytics`: nothing stored (or the empty string), or text that
      does not parse, gives the default; otherwise the parsed value. */
  function LoadAnalytics(stored: Option<string>, parse: string -> Option<Analytics>): (a: Analytics)
    ensures stored.None? || !Truthy(stored.value) ==> a == DefaultAnalytics()
    ensures stored.Some? && Truthy(stored.value) && parse(stored.value).None? ==> a == DefaultAnalytics()
    ensures stored.Some? && Truthy(stored.value) && parse(stored.value).Some? ==> a == parse(stored.value).value
  {
    if stored.Some? && Truthy(stored.value) then
      match parse(stored.value)
      case Some(value) => value
      case None => DefaultAnalytics()
    else DefaultAnalytics()
  }

  /** `date.split('T')[0]`: the part of the date before its first 'T',
      or the whole date when it has none. */
  function DayKey(date: string): (d: string)
    ensures |d| <= |date| && d == date[..|d|]
    ensures 'T' !in d
    ensures |d| < |date| ==> date[|d|] == 'T'
  {
    if date == [] then []
    else if date[0] == 'T' then []
    else [date[0]] + DayKey(date[1..])
  }

  /** A date with no 'T' is its own day key, and the day key of an ISO
      timestamp `day + "T" + time` is `day` whenever `day` has no 'T'. */
  lemma {:induction false} DayKeyOfTimestamp(day: string, time: string)
    requires 'T' !in day
    ensures DayKey(day) == day
    ensures DayKey(day + "T" + time) == day
  {
    if day != [] {
      assert (day + "T" + time)[1..] == day[1..] + "T" + time;
      DayKeyOfTimestamp(day[1..], time);
    } else {
      assert day + "T" + time == "T" + time;
    }
  }

  /** The provider's state. */
  class AnalyticsProvider {
    var analytics: Analytics

    /** The state is initialised from storage. */
    constructor (stored: Option<string>, parse: string -> Option<Analytics>)
      ensures analytics == LoadAnalytics(stored, parse)
    {
      analytics := LoadAnalytics(stored, parse);
    }

    /** `logNoteCreated`: one more note on the date's day, one more use of
        each tag per occurrence in the list (a missing list is empty), and
        nothing else changes. */
    method LogNoteCreated(date: string, tags: Option<seq<string>>)
      modifies this
      ensures analytics.notesCreated == Bump(old(analytics.notesCreated), DayKey(date))
      ensures analytics.tagCounts == Some(Tally(old(analytics.tagCounts).GetOr(map[]), tags.GetOr([])))
      ensures analytics.aiUsage == old(analytics.aiUsage)
    {
      var d := DayKey(date);
      var notesCreated := Bump(analytics.notesCreated, d);
      var tagCounts := BumpEach(analytics.tagCounts.GetOr(map[]), tags.GetOr([]));
      analytics := analytics.(notesCreated := notesCreated, tagCounts := Some(tagCounts));
    }

    /** `logAIUsage`: one more use of the named feature (an absent one
        counts from zero), and nothing else changes. */
    method LogAIUsage(feature: string)
      modifies this
      ensures analytics.aiUsage == Bump(old(analytics.aiUsage), feature)
      ensures analytics.notesCreated == old(analytics.notesCreated)
      ensures analytics.tagCounts == old(analytics.tagCounts)
    {
      analytics := analytics.(aiUsage := Bump(analytics.aiUsage, feature));
    }
  }

  /** What `LogNoteCreated` does to each counter: the date's day gains one
      and every other day is unchanged; each tag gains its number of
      occurrences in the list, so a tag not in the list is unchanged. */
  lemma NoteCreatedCounts(before: Analytics, date: string, tags: Option<seq<string>>, day: string, tag: string)
    ensures var after := Bump(before.notesCreated, DayKey(date));
      Get(after, day) == Get(before.notesCreated, day) + (if day == DayKey(date) then 1 else 0)
    ensures var after := Tally(before.tagCounts.GetOr(map[]), tags.GetOr([]));
      && Get(after, tag) == Get(before.tagCounts.GetOr(map[]), tag) + Count(tags.GetOr([]), tag)
      && (tag !in tags.GetOr([]) ==> Get(after, tag) == Get(before.tagCounts.GetOr(map[]), tag))
  {
    TallyGet(before.tagCounts.GetOr(map[]), tags.GetOr([]), tag);
  }
}
