/** The notes list: which view is rendered, the expand toggle, delete with
    confirmation, and the per-note summaries with their retry counters. */
module NotesList {
  import opened Wrappers
  import opened Text
  import opened Counters
  import opened NoteModel
  import opened NotesContext
  import NoteForm

  /** What the list renders. */
  datatype View = LoadingView | ErrorView(message: string) | EmptyView | ListView(shown: seq<Note>)

  /** A JavaScript `null`-or-string is truthy iff it is a non-empty string. */
  predicate TruthyError(error: Option<string>) {
    error.Some? && Truthy(error.value)
  }

  /** The early returns: loading first, then an error, then the empty
      state when the filtered list is empty, and the list otherwise. */
  function Render(loading: bool, error: Option<string>, notes: seq<Note>, selected: Option<string>): (v: View)
    ensures v.LoadingView? <==> loading
    ensures v.ErrorView? <==> !loading && TruthyError(error)
    ensures v.ErrorView? ==> v.message == error.value
    ensures v.EmptyView? <==> !loading && !TruthyError(error) && FilteredNotes(notes, selected) == []
    ensures v.ListView? ==> v.shown == FilteredNotes(notes, selected) && v.shown != []
  {
    if loading then LoadingView
    else if TruthyError(error) then ErrorView(error.value)
    else if FilteredNotes(notes, selected) == [] then EmptyView
    else ListView(FilteredNotes(notes, selected))
  }

  /** Clicking a note's header: the expanded note collapses, any other
      note expands and the previously expanded one collapses. */
  function Toggle(expanded: Option<string>, id: string): (r: Option<string>)
    ensures r == Some(id) <==> expanded != Some(id)
    ensures r.Some? ==> r == Some(id)
  {
    if expanded == Some(id) then None else Some(id)
  }

  /** A second click on the same note undoes the first when nothing, or
      that note, was expanded before. */
  lemma ToggleTwice(expanded: Option<string>, id: string)
    requires expanded == None || expanded == Some(id)
    ensures Toggle(Toggle(expanded, id), id) == expanded
  {
  }

  /** The list component's own state. `failedSummary` is not in the
      source: it is what the corrected error box needs (see
      `ErrorBoxShown`). */
  class ListState {
    var expandedNoteId: Option<string>
    var summaries: map<string, string>
    var retryCount: map<string, nat>
    var loadingSummary: Option<string>
    var summaryError: Option<string>
    var failedSummary: Option<string>

    /** A summary error is only set once no summary is in flight, and it is
        set exactly when the last summary failed. */
    predicate Valid()
      reads this
    {
      && (summaryError.Some? ==> loadingSummary.None?)
      && (summaryError.Some? <==> failedSummary.Some?)
    }

    constructor ()
      ensures Valid()
      ensures expandedNoteId == None && summaries == map[] && retryCount == map[]
      ensures loadingSummary == None && summaryError == None
    {
      expandedNoteId, summaries, retryCount := None, map[], map[];
      loadingSummary, summaryError, failedSummary := None, None, None;
    }

    predicate IsExpanded(id: string)
      reads this
    {
      expandedNoteId == Some(id)
    }

    /** The header button. */
    method ClickNote(id: string)
      modifies this
      ensures expandedNoteId == Toggle(old(expandedNoteId), id)
      ensures summaries == old(summaries) && retryCount == old(retryCount)
      ensures loadingSummary == old(loadingSummary) && summaryError == old(summaryError)
      ensures failedSummary == old(failedSummary)
    {
      expandedNoteId := Toggle(expandedNoteId, id);
    }

    /** `handleDelete`: nothing happens unless the user confirms; a
        confirmed delete goes through the store, and on success collapses
        the note if it was the expanded one. A failure is reported and
        changes nothing. */
    method HandleDelete(noteId: string, confirmed: bool, store: NotesStore, remove: string -> Option<string>)
      returns (alerted: bool)
      modifies this, store
      ensures !confirmed ==> store.notes == old(store.notes) && !alerted
      ensures confirmed ==> alerted == remove(noteId).Some?
      ensures confirmed && remove(noteId).None? ==> store.notes == RemoveById(old(store.notes), noteId)
      ensures confirmed && remove(noteId).Some? ==> store.notes == old(store.notes)
      ensures expandedNoteId ==
        if confirmed && remove(noteId).None? && old(expandedNoteId) == Some(noteId) then None
        else old(expandedNoteId)
      ensures store.loading == old(store.loading) && store.error == old(store.error)
      ensures summaries == old(summaries) && retryCount == old(retryCount)
      ensures loadingSummary == old(loadingSummary) && summaryError == old(summaryError)
      ensures failedSummary == old(failedSummary)
    {
      alerted := false;
      if confirmed {
        var thrown := store.DeleteNote(noteId, remove);
        if thrown.None? {
          if expandedNoteId == Some(noteId) {
            expandedNoteId := None;
          }
        } else {
          alerted := true;
        }
      }
    }

    /** The Summarize button's `disabled`. */
    predicate SummarizeDisabled(id: string)
      reads this
    {
      loadingSummary == Some(id)
    }

    /** A summary starts for note `noteId`: it is marked in flight and any
        earlier summary error is cleared. */
    method BeginSummarize(noteId: string)
      requires Valid()
      modifies this
      ensures Valid()
      ensures loadingSummary == Some(noteId) && summaryError == None && failedSummary == None
      ensures expandedNoteId == old(expandedNoteId) && summaries == old(summaries)
      ensures retryCount == old(retryCount)
    {
      loadingSummary, summaryError, failedSummary := Some(noteId), None, None;
    }

    /** Summary attempt `attempt` for note `noteId` ends with `result`: a
        summary is stored under that note and resets that note's retry
        count, every other entry unchanged; an error is recorded with the
        prefix "AI error: " and the delay of the next automatic attempt, if
        any, is returned. No summary is in flight afterwards. */
    method CompleteSummarize(noteId: string, attempt: nat, result: Result<string, string>)
      returns (retryAfter: Option<nat>)
      requires Valid()
      modifies this
      ensures Valid()
      ensures loadingSummary == None
      ensures result.Ok? ==>
        && summaries == old(summaries)[noteId := result.value]
        && retryCount == old(retryCount)[noteId := 0]
        && summaryError == old(summaryError) && failedSummary == old(failedSummary)
        && retryAfter == None
      ensures result.Err? ==>
        && summaries == old(summaries) && retryCount == old(retryCount)
        && summaryError == Some("AI error: " + result.error) && failedSummary == Some(noteId)
        && retryAfter == NoteForm.RetryDelay(attempt)
      ensures result.Err? ==> ErrorBoxShown(noteId) && forall other :: other != noteId ==> !ErrorBoxShown(other)
      ensures expandedNoteId == old(expandedNoteId)
    {
      retryAfter := None;
      match result {
        case Ok(summary) =>
          summaries := summaries[noteId := summary];
          retryCount := retryCount[noteId := 0];
        case Err(message) =>
          summaryError := Some("AI error: " + message);
          failedSummary := Some(noteId);
          retryAfter := NoteForm.RetryDelay(attempt);
      }
      loadingSummary := None;
    }

    /** The error box under a note as written: an error is set while that
        note's summary is in flight. */
    predicate ErrorBoxShownAsWritten(id: string)
      reads this
    {
      TruthyError(summaryError) && loadingSummary == Some(id)
    }

    /** The error box under a note as intended: the last summary failed and
        it was this note's. */
    predicate ErrorBoxShown(id: string)
      reads this
    {
      TruthyError(summaryError) && failedSummary == Some(id)
    }

    /** The Retry button in a note's error box: shown while that note's
        manual retries number fewer than two. */
    predicate RetryShown(id: string)
      reads this
    {
      ErrorBoxShown(id) && Get(retryCount, id) < NoteForm.MaxRetries
    }

    /** The Retry button counts one more retry for that note only and
        starts its summary again. */
    method ClickRetry(noteId: string) returns (rerun: string)
      requires Valid() && RetryShown(noteId)
      modifies this
      ensures Valid()
      ensures retryCount == Bump(old(retryCount), noteId)
      ensures rerun == noteId
      ensures Get(retryCount, noteId) <= NoteForm.MaxRetries
      ensures expandedNoteId == old(expandedNoteId) && summaries == old(summaries)
      ensures loadingSummary == old(loadingSummary) && summaryError == old(summaryError)
      ensures failedSummary == old(failedSummary)
    {
      retryCount := Bump(retryCount, noteId);
      rerun := noteId;
    }

    /** A summary box is shown for a note with a non-empty summary. */
    predicate SummaryShown(id: string)
      reads this
    {
      id in summaries && Truthy(summaries[id])
    }
  }

  /** As written, the error box is never shown: whenever an error is set,
      no summary is in flight. */
  lemma ErrorBoxNeverShown(state: ListState, id: string)
    requires state.Valid()
    ensures !state.ErrorBoxShownAsWritten(id)
  {
  }

  /** After a failed summary the error box as written stays hidden, while
      the corrected one shows under the note whose summary failed. */
  method FailedSummaryScenario(noteId: string, message: string) returns (asWritten: bool, intended: bool)
    ensures !asWritten && intended
  {
    var state := new ListState();
    state.BeginSummarize(noteId);
    var _ := state.CompleteSummarize(noteId, 0, Err(message));
    asWritten := state.ErrorBoxShownAsWritten(noteId);
    intended := state.ErrorBoxShown(noteId);
  }
}
