/** The older analytics dashboard, which reads the locally stored counters
    of `AnalyticsContext` instead of counting notes and usage rows: notes
    per day, AI usage and the ten most used tags all come from the stored
    object. */
module LegacyAnalyticsDashboard {
  import opened Wrappers
  import opened Seqs
  import opened Counters
  import opened AnalyticsContext
  import opened AnalyticsDashboard

  /** `last7.map(d => analytics.notesCreated[d] || 0)`. */
  function StoredNotesPerDay(a: Analytics, days: seq<string>): (r: seq<nat>)
    ensures |r| == |days|
    ensures forall i :: 0 <= i < |days| ==> r[i] == Get(a.notesCreated, days[i])
  {
    seq(|days|, i requires 0 <= i < |days| => Get(a.notesCreated, days[i]))
  }

  /** Logging a note created on `date` raises the bar of that date's day
      by one and leaves every other bar as it was. */
  lemma NoteCreatedRaisesItsDay(a: Analytics, date: string, days: seq<string>, i: nat)
    requires i < |days|
    ensures var after := a.(notesCreated := Bump(a.notesCreated, DayKey(date)));
      StoredNotesPerDay(after, days)[i]
        == StoredNotesPerDay(a, days)[i] + (if days[i] == DayKey(date) then 1 else 0)
  {
  }

  /** `[aiUsage.summarize, aiUsage.autoTitle, aiUsage.generate]`; a feature
      missing from the stored object is `undefined`. */
  function StoredAiData(a: Analytics): (r: seq<Option<nat>>)
    ensures |r| == 3
    ensures r[0].Some? <==> "summarize" in a.aiUsage
    ensures r[1].Some? <==> "autoTitle" in a.aiUsage
    ensures r[2].Some? <==> "generate" in a.aiUsage
    ensures forall i :: 0 <= i < 3 && r[i].Some? ==> r[i].value == Get(a.aiUsage, ["summarize", "autoTitle", "generate"][i])
  {
    [Lookup(a.aiUsage, "summarize"), Lookup(a.aiUsage, "autoTitle"), Lookup(a.aiUsage, "generate")]
  }

  /** A property read: `undefined` when absent. */
  function Lookup(m: map<string, nat>, k: string): (v: Option<nat>)
    ensures v.Some? <==> k in m
    ensures v.Some? ==> v.value == Get(m, k)
  {
    if k in m then Some(m[k]) else None
  }

  /** From the default object every bar reads zero, and each logged use of
      one of the three features raises exactly its own bar by one. */
  lemma AiUsageBars(a: Analytics, feature: string, i: nat)
    requires i < 3
    ensures StoredAiData(DefaultAnalytics()) == [Some(0), Some(0), Some(0)]
    ensures var after := a.(aiUsage := Bump(a.aiUsage, feature));
      var name := ["summarize", "autoTitle", "generate"][i];
      && StoredAiData(after)[i].Some?
         == (name in a.aiUsage || name == feature)
      && (StoredAiData(after)[i].Some? ==>
            StoredAiData(after)[i].value == Get(a.aiUsage, name) + (if name == feature then 1 else 0))
  {
  }

  /** Entries kept from a counter map are entries of that map. */
  lemma TopEntriesInCounts(entries: seq<Entry>, counts: map<string, nat>)
    requires IsEntriesOf(entries, counts)
    ensures var top := TopTags(entries);
      forall i :: 0 <= i < |top| ==> top[i].0 in counts && top[i].1 == counts[top[i].0]
  {
    var top := TopTags(entries);
    forall i | 0 <= i < |top| ensures top[i].0 in counts && top[i].1 == counts[top[i].0] {
      assert top[i] in multiset(entries);
    }
  }

  /** The tag chart from `analytics.tagCounts || {}`: at most ten entries,
      in non-increasing order of count, each label a stored tag and each
      datum that tag's stored count; none when nothing is stored. */
  function StoredTopTags(a: Analytics, entries: seq<Entry>): (r: seq<Entry>)
    requires IsEntriesOf(entries, a.tagCounts.GetOr(map[]))
    ensures |r| <= TopN && SortedDesc(r)
    ensures |Labels(r)| == |Data(r)| == |r|
    ensures forall i :: 0 <= i < |r| ==>
      Labels(r)[i] in a.tagCounts.GetOr(map[]) && Data(r)[i] == a.tagCounts.GetOr(map[])[Labels(r)[i]]
    ensures a.tagCounts.None? ==> r == []
  {
    TopEntriesInCounts(entries, a.tagCounts.GetOr(map[]));
    TopTags(entries)
  }
}
