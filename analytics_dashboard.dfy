/** The analytics dashboard: AI feature use counted from the usage rows, tag
    use tallied over the notes, the ten most used tags, and notes created
    per day. The list of days and the conversion of a timestamp to a local
    day are parameters. */
module AnalyticsDashboard {
  import opened Wrappers
  import opened Seqs
  import opened Counters
  import opened NoteModel
  import AiService

  // ----- AI usage --------------------------------------------------------------

  /** The three counters the usage chart shows. */
  datatype AiUsage = AiUsage(summarize: nat, autoTitle: nat, generate: nat)

  /** Count the `feature` column of the usage rows: a row naming one of the
      three features adds one to that counter, any other row is skipped. */
  method CountUsage(features: seq<string>) returns (usage: AiUsage)
    ensures usage.summarize == Count(features, "summarize")
    ensures usage.autoTitle == Count(features, "autoTitle")
    ensures usage.generate == Count(features, "generate")
    ensures usage.summarize + usage.autoTitle + usage.generate <= |features|
  {
    usage := AiUsage(0, 0, 0);
    var i := 0;
    while i < |features|
      invariant 0 <= i <= |features|
      invariant usage.summarize == Count(features[..i], "summarize")
      invariant usage.autoTitle == Count(features[..i], "autoTitle")
      invariant usage.generate == Count(features[..i], "generate")
    {
      var f := features[i];
      assert features[..i + 1] == features[..i] + [f];
      CountSnoc(features[..i], f, "summarize");
      CountSnoc(features[..i], f, "autoTitle");
      CountSnoc(features[..i], f, "generate");
      if f == "summarize" {
        usage := usage.(summarize := usage.summarize + 1);
      } else if f == "autoTitle" {
        usage := usage.(autoTitle := usage.autoTitle + 1);
      } else if f == "generate" {
        usage := usage.(generate := usage.generate + 1);
      }
      i := i + 1;
    }
    assert features[..i] == features;
    CountThreeBound(features, "summarize", "autoTitle", "generate");
  }

  /** The usage rows the AI calls leave behind: one per call, in order. */
  function LoggedRows(calls: seq<AiService.Feature>): (rows: seq<string>)
    ensures |rows| == |calls|
  {
    if calls == [] then []
    else LoggedRows(calls[..|calls| - 1]) + [AiService.FeatureName(calls[|calls| - 1])]
  }

  /** Counting the rows the AI calls logged gives, for each feature, the
      number of calls of that feature. */
  lemma {:induction false} UsageCountsCalls(calls: seq<AiService.Feature>, f: AiService.Feature)
    ensures Count(LoggedRows(calls), AiService.FeatureName(f)) == Count(calls, f)
  {
    if calls != [] {
      var init, last := calls[..|calls| - 1], calls[|calls| - 1];
      UsageCountsCalls(init, f);
      AiService.FeatureNameInjective(last, f);
      CountSnoc(LoggedRows(init), AiService.FeatureName(last), AiService.FeatureName(f));
      assert calls == init + [last];
      CountSnoc(init, last, f);
    }
  }

  /** What the usage query came to. */
  datatype UsageResponse =
    | QueryError(message: string)
    | Threw(message: string)
    | Rows(data: Option<seq<string>>)

  /** What the AI usage section shows. */
  datatype UsagePanel = UsageSpinner | UsageErrorBox(message: string) | UsageChart(data: seq<nat>)

  /** The usage hook's state. */
  class UsageStats {
    var aiUsage: AiUsage
    var loading: bool
    var error: Option<string>

    constructor ()
      ensures aiUsage == AiUsage(0, 0, 0) && loading && error == None
      ensures Panel() == UsageSpinner
    {
      aiUsage, loading, error := AiUsage(0, 0, 0), true, None;
    }

    /** `fetchUsage`: a query error or an exception leaves the counters as
        they were and sets the fixed message; rows (none when `data` is
        null) are counted. Loading ends in every case. */
    method FetchUsage(response: UsageResponse)
      modifies this
      ensures !loading
      ensures !response.Rows? ==> aiUsage == old(aiUsage) && error == Some("Failed to load AI usage data")
      ensures response.Rows? ==>
        var rows := response.data.GetOr([]);
        && error == None
        && aiUsage.summarize == Count(rows, "summarize")
        && aiUsage.autoTitle == Count(rows, "autoTitle")
        && aiUsage.generate == Count(rows, "generate")
      ensures !response.Rows? ==> Panel() == UsageErrorBox("Failed to load AI usage data")
      ensures response.Rows? ==>
        var rows := response.data.GetOr([]);
        Panel() == UsageChart([Count(rows, "summarize"), Count(rows, "autoTitle"), Count(rows, "generate")])
    {
      error := None;
      match response {
        case QueryError(_) =>
          error := Some("Failed to load AI usage data");
        case Threw(_) =>
          error := Some("Failed to load AI usage data");
        case Rows(data) =>
          aiUsage := CountUsage(data.GetOr([]));
      }
      loading := false;
    }

    /** The section's precedence: the spinner while loading, otherwise the
        error with its reload button, otherwise the pie chart of the three
        counters. */
    function Panel(): (p: UsagePanel)
      reads this
      ensures p.UsageSpinner? <==> loading
      ensures p.UsageErrorBox? <==> !loading && error.Some?
      ensures p.UsageChart? <==> !loading && error.None?
      ensures p.UsageChart? ==> p.data == AiData(aiUsage)
    {
      if loading then UsageSpinner
      else if error.Some? then UsageErrorBox(error.value)
      else UsageChart(AiData(aiUsage))
    }
  }

  /** The usage chart's data, in label order Summarize, Auto-Title,
      Generate. */
  function AiData(u: AiUsage): (data: seq<nat>)
    ensures |data| == 3
  {
    [u.summarize, u.autoTitle, u.generate]
  }

  /** Fed with the counts of the rows the AI service logged, the three bars
      are the numbers of summaries, titles and generations requested, in
      that order. */
  lemma AiDataCountsCalls(calls: seq<AiService.Feature>, u: AiUsage)
    requires u.summarize == Count(LoggedRows(calls), "summarize")
    requires u.autoTitle == Count(LoggedRows(calls), "autoTitle")
    requires u.generate == Count(LoggedRows(calls), "generate")
    ensures AiData(u) == [Count(calls, AiService.Summarize), Count(calls, AiService.AutoTitle),
                          Count(calls, AiService.Generate)]
  {
    UsageCountsCalls(calls, AiService.Summarize);
    UsageCountsCalls(calls, AiService.AutoTitle);
    UsageCountsCalls(calls, AiService.Generate);
  }

  // ----- Tag use -------------------------------------------------------------

  /** `tagCounts`: every tag of every note (missing tags read as none)
      counted once per occurrence. */
  method TallyTags(notes: seq<Note>) returns (counts: map<string, nat>)
    ensures counts == Tally(map[], Occurrences(notes))
    ensures forall t :: Get(counts, t) == Count(Occurrences(notes), t)
  {
    counts := map[];
    var i := 0;
    while i < |notes|
      invariant 0 <= i <= |notes|
      invariant counts == Tally(map[], Occurrences(notes[..i]))
    {
      counts := BumpEach(counts, TagsOf(notes[i]));
      TallyConcat(map[], Occurrences(notes[..i]), TagsOf(notes[i]));
      assert notes[..i + 1] == notes[..i] + [notes[i]];
      OccurrencesSnoc(notes[..i], notes[i]);
      i := i + 1;
    }
    assert notes[..i] == notes;
    forall t ensures Get(counts, t) == Count(Occurrences(notes), t) {
      TallyGet(map[], Occurrences(notes), t);
    }
  }

  /** Tallying two lists in turn is tallying their concatenation. */
  lemma {:induction false} TallyConcat(m: map<string, nat>, a: seq<string>, b: seq<string>)
    ensures Tally(Tally(m, a), b) == Tally(m, a + b)
    decreases |b|
  {
    if b == [] {
      assert a + b == a;
    } else {
      var init, last := b[..|b| - 1], b[|b| - 1];
      TallyConcat(m, a, init);
      assert a + b == (a + init) + [last];
      TallySnoc(m, a + init, last);
    }
  }

  // ----- Top ten ---------------------------------------------------------------

  /** A `[tag, count]` pair of `Object.entries(tagCounts)`. */
  type Entry = (string, nat)

  /** How many entries the tag chart keeps. */
  const TopN: nat := 10

  /** `entries` lists `counts`: each key once, with its count. */
  predicate IsEntriesOf(entries: seq<Entry>, counts: map<string, nat>) {
    && (forall i, j :: 0 <= i < j < |entries| ==> entries[i].0 != entries[j].0)
    && (forall i :: 0 <= i < |entries| ==> entries[i].0 in counts && entries[i].1 == counts[entries[i].0])
    && (forall k :: k in counts ==> exists i :: 0 <= i < |entries| && entries[i].0 == k)
  }

  /** Non-increasing by count. */
  predicate SortedDesc(s: seq<Entry>) {
    forall i, j :: 0 <= i < j < |s| ==> s[i].1 >= s[j].1
  }

  /** Insert `x` into a sorted list after every entry whose count is at
      least its own. */
  function InsertDesc(x: Entry, s: seq<Entry>): (r: seq<Entry>)
    ensures multiset(r) == multiset(s) + multiset{x}
    ensures |r| == |s| + 1
  {
    if s == [] then [x]
    else if s[|s| - 1].1 >= x.1 then s + [x]
    else
      assert s == s[..|s| - 1] + [s[|s| - 1]];
      InsertDesc(x, s[..|s| - 1]) + [s[|s| - 1]]
  }

  /** Inserting into a sorted list keeps it sorted. */
  lemma {:induction false} InsertDescSorted(x: Entry, s: seq<Entry>)
    requires SortedDesc(s)
    ensures SortedDesc(InsertDesc(x, s))
  {
    if s != [] && s[|s| - 1].1 < x.1 {
      var init, last := s[..|s| - 1], s[|s| - 1];
      InsertDescSorted(x, init);
      var r := InsertDesc(x, init);
      forall i | 0 <= i < |r| ensures r[i].1 >= last.1 {
        assert r[i] in multiset(r);
        if r[i] != x {
          assert r[i] in multiset(init);
          var k :| 0 <= k < |init| && init[k] == r[i];
          assert s[k] == init[k];
        }
      }
    }
  }

  /** `sort((a, b) => b[1] - a[1])`: a stable sort by non-increasing
      count, built by inserting the entries one by one. */
  function SortDesc(s: seq<Entry>): (r: seq<Entry>)
    ensures SortedDesc(r) && multiset(r) == multiset(s) && |r| == |s|
  {
    if s == [] then []
    else
      assert s == s[..|s| - 1] + [s[|s| - 1]];
      InsertDescSorted(s[|s| - 1], SortDesc(s[..|s| - 1]));
      InsertDesc(s[|s| - 1], SortDesc(s[..|s| - 1]))
  }

  /** `.slice(0, 10)` of the sorted entries. */
  function TopTags(entries: seq<Entry>): (r: seq<Entry>)
    ensures |r| == if |entries| < TopN then |entries| else TopN
    ensures SortedDesc(r)
    ensures multiset(r) <= multiset(entries)
  {
    var sorted := SortDesc(entries);
    var k := if |sorted| < TopN then |sorted| else TopN;
    assert sorted == sorted[..k] + sorted[k..];
    sorted[..k]
  }

  /** No entry left out of the top ten has a larger count than one kept. */
  lemma TopTagsOmitSmaller(entries: seq<Entry>, e: Entry, i: nat)
    requires e in entries && e !in TopTags(entries) && i < |TopTags(entries)|
    ensures e.1 <= TopTags(entries)[i].1
  {
    var sorted := SortDesc(entries);
    assert e in multiset(sorted);
    var k :| 0 <= k < |sorted| && sorted[k] == e;
    assert TopTags(entries) == sorted[..|TopTags(entries)|];
  }

  /** The chart's labels and data, index by index. */
  function Labels(entries: seq<Entry>): (labels: seq<string>)
    ensures |labels| == |entries|
  {
    seq(|entries|, i requires 0 <= i < |entries| => entries[i].0)
  }

  function Data(entries: seq<Entry>): (data: seq<nat>)
    ensures |data| == |entries|
  {
    seq(|entries|, i requires 0 <= i < |entries| => entries[i].1)
  }

  /** Label `i` is a tag of `counts` and data `i` is that tag's count, in
      non-increasing order of count. */
  lemma LabelsDataAligned(entries: seq<Entry>, counts: map<string, nat>, i: nat, j: nat)
    requires IsEntriesOf(entries, counts)
    requires i < |TopTags(entries)|
    ensures var top := TopTags(entries);
      Labels(top)[i] in counts && Data(top)[i] == counts[Labels(top)[i]]
    ensures var top := TopTags(entries);
      i < j < |top| ==> Data(top)[i] >= Data(top)[j]
  {
    var top := TopTags(entries);
    assert top[i] in multiset(entries);
  }

  /** With the counts tallied from the notes, the tag chart's empty state
      shows iff no note has a tag. */
  lemma TagEmptyStateSpec(notes: seq<Note>, entries: seq<Entry>)
    requires IsEntriesOf(entries, Tally(map[], Occurrences(notes)))
    ensures |Labels(TopTags(entries))| == 0 <==> Occurrences(notes) == []
  {
    var occ := Occurrences(notes);
    if occ != [] {
      TallyKeys(map[], occ, occ[0]);
    } else {
      assert Tally(map[], occ) == map[];
    }
  }

  // ----- Notes per day -------------------------------------------------------

  /** The local day of a note's `created_at`, none when it is missing or
      empty. */
  function NoteDay(n: Note, localDate: string -> string): (d: Option<string>)
    ensures d.None? <==> n.createdAt.None? || n.createdAt.value == ""
  {
    if n.createdAt.None? || n.createdAt.value == "" then None else Some(localDate(n.createdAt.value))
  }

  /** The number of notes created on `day`. */
  function DayCount(notes: seq<Note>, localDate: string -> string, day: string): (c: nat)
    ensures c <= |notes|
  {
    if notes == [] then 0
    else DayCount(notes[..|notes| - 1], localDate, day)
         + (if NoteDay(notes[|notes| - 1], localDate) == Some(day) then 1 else 0)
  }

  /** `notesPerDay`: one entry per day. */
  function NotesPerDay(notes: seq<Note>, days: seq<string>, localDate: string -> string): (r: seq<nat>)
    ensures |r| == |days|
  {
    if days == [] then []
    else NotesPerDay(notes, days[..|days| - 1], localDate) + [DayCount(notes, localDate, days[|days| - 1])]
  }

  /** Entry `i` counts the notes created on day `i`. */
  lemma {:induction false} NotesPerDayAt(notes: seq<Note>, days: seq<string>, localDate: string -> string, i: nat)
    requires i < |days|
    ensures NotesPerDay(notes, days, localDate)[i] == DayCount(notes, localDate, days[i])
  {
    if i < |days| - 1 {
      NotesPerDayAt(notes, days[..|days| - 1], localDate, i);
    }
  }

  /** The number of notes created on any of `days`. */
  function InDaysCount(notes: seq<Note>, localDate: string -> string, days: seq<string>): (c: nat)
    ensures c <= |notes|
  {
    if notes == [] then 0
    else InDaysCount(notes[..|notes| - 1], localDate, days)
         + (var d := NoteDay(notes[|notes| - 1], localDate); if d.Some? && d.value in days then 1 else 0)
  }

  lemma {:induction false} InDaysSnoc(notes: seq<Note>, localDate: string -> string, days: seq<string>, day: string)
    requires day !in days
    ensures InDaysCount(notes, localDate, days + [day])
         == InDaysCount(notes, localDate, days) + DayCount(notes, localDate, day)
  {
    if notes != [] {
      InDaysSnoc(notes[..|notes| - 1], localDate, days, day);
    }
  }

  /** A note without a creation time is never counted, and over distinct
      days the entries add up to at most the number of notes. */
  lemma {:induction false} NotesPerDayBound(notes: seq<Note>, days: seq<string>, localDate: string -> string)
    requires NoDup(days)
    ensures Sum(NotesPerDay(notes, days, localDate)) == InDaysCount(notes, localDate, days) <= |notes|
  {
    if days != [] {
      var init, last := days[..|days| - 1], days[|days| - 1];
      assert NoDup(init);
      assert last !in init by {
        forall k | 0 <= k < |init| ensures init[k] != last {
          assert days[k] == init[k];
        }
      }
      NotesPerDayBound(notes, init, localDate);
      InDaysSnoc(notes, localDate, init, last);
      assert days == init + [last];
      SumConcat(NotesPerDay(notes, init, localDate), [DayCount(notes, localDate, last)]);
    } else {
      InDaysEmpty(notes, localDate);
    }
  }

  lemma {:induction false} InDaysEmpty(notes: seq<Note>, localDate: string -> string)
    ensures InDaysCount(notes, localDate, []) == 0
  {
    if notes != [] {
      InDaysEmpty(notes[..|notes| - 1], localDate);
    }
  }

  /** A note without a creation time adds nothing to any day. */
  lemma UndatedNotCounted(notes: seq<Note>, n: Note, localDate: string -> string, day: string)
    requires n.createdAt.None? || n.createdAt.value == ""
    ensures DayCount(notes + [n], localDate, day) == DayCount(notes, localDate, day)
  {
    assert (notes + [n])[..|notes + [n]| - 1] == notes;
  }
}
