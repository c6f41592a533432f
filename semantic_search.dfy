/** The semantic search panel: a query box whose submit asks the similarity
    search for the five closest notes, and the error, empty and results
    panels that follow from its state. The search itself is a parameter. */
module SemanticSearch {
  import opened Wrappers
  import opened Text
  import opened NoteModel

  /** A note returned by the similarity search with its score. */
  datatype Hit = Hit(note: Note, similarity: real)

  /** How many notes a search asks for. */
  const ResultLimit: nat := 5

  const FailureMessage: string := "Failed to perform semantic search"

  /** "Found n related note" takes an "s" unless exactly one note was
      found. */
  function ResultNoun(count: nat): (noun: string)
    ensures noun == "note" <==> count == 1
    ensures noun == "note" || noun == "notes"
  {
    if count != 1 then "notes" else "note"
  }

  class SearchPanel {
    var query: string
    var results: seq<Hit>
    var loading: bool
    var error: Option<string>
    var hasSearched: bool

    /** The only error ever shown is the fixed failure message, and it is
        never shown beside stale results. */
    predicate Valid()
      reads this
    {
      error.Some? ==> error.value == FailureMessage && results == []
    }

    constructor ()
      ensures Valid()
      ensures query == "" && results == [] && !loading && error == None && !hasSearched
    {
      query, results, loading, error, hasSearched := "", [], false, None, false;
    }

    /** Typing into the box. */
    method SetQuery(q: string)
      modifies this
      ensures query == q
      ensures results == old(results) && loading == old(loading)
      ensures error == old(error) && hasSearched == old(hasSearched)
    {
      query := q;
    }

    /** The submit button's `disabled`. */
    predicate SearchDisabled()
      reads this
    {
      loading || Blank(query)
    }

    /** `handleSearch` up to the call (the form's submit and the Retry
        button): a blank query changes nothing and sends nothing; otherwise
        the panel is marked searching, the error is cleared, the search is
        recorded as made and the trimmed query is sent with the limit of
        five. */
    method BeginSearch() returns (request: Option<(string, nat)>)
      requires Valid()
      modifies this
      ensures Valid()
      ensures request.None? <==> Blank(old(query))
      ensures request.None? ==>
        loading == old(loading) && error == old(error) && hasSearched == old(hasSearched)
      ensures request.Some? ==>
        && request.value == (Trim(old(query)), ResultLimit)
        && loading && error == None && hasSearched
      ensures request.Some? ==> ClearShown()
      ensures query == old(query) && results == old(results)
    {
      if Blank(query) {
        return None;
      }
      loading, error, hasSearched := true, None, true;
      request := Some((Trim(query), ResultLimit));
    }

    /** The search returns: its hits replace the results, or on failure the
        fixed message is shown and the results are emptied. The panel is no
        longer searching either way. The search began with the error
        cleared, and nothing sets it while the search is out. */
    method CompleteSearch(outcome: Result<seq<Hit>, string>)
      requires error == None
      modifies this
      ensures Valid()
      ensures !loading
      ensures outcome.Ok? ==> results == outcome.value && error == None
      ensures outcome.Err? ==> results == [] && error == Some(FailureMessage)
      ensures query == old(query) && hasSearched == old(hasSearched)
    {
      match outcome {
        case Ok(hits) =>
          results := hits;
        case Err(_) =>
          error := Some(FailureMessage);
          results := [];
      }
      loading := false;
    }

    /** `clearSearch`: back to the initial panel, except that a search in
        flight is still in flight. */
    method ClearSearch()
      modifies this
      ensures Valid()
      ensures query == "" && results == [] && error == None && !hasSearched
      ensures !ClearShown() && !ErrorShown() && !EmptyStateShown() && !ResultsShown()
      ensures loading == old(loading)
    {
      query, results, error, hasSearched := "", [], None, false;
    }

    /** The Clear button, shown once a search has been made. */
    predicate ClearShown()
      reads this
    {
      hasSearched
    }

    /** The error box with its Retry button. */
    predicate ErrorShown()
      reads this
    {
      error.Some? && Truthy(error.value)
    }

    /** "No notes found matching your search". */
    predicate EmptyStateShown()
      reads this
    {
      hasSearched && !loading && !ErrorShown() && |results| == 0
    }

    /** The results list with its "Found n related note(s)" heading. */
    predicate ResultsShown()
      reads this
    {
      !loading && !ErrorShown() && |results| > 0
    }
  }

  /** A blank query can be neither submitted nor searched for; a query that
      is not blank can be submitted whenever no search is in flight. */
  lemma SubmitMatchesHandler(p: SearchPanel)
    ensures Blank(p.query) ==> p.SearchDisabled()
    ensures !p.loading ==> (p.SearchDisabled() <==> Blank(p.query))
  {
  }

  /** On a valid panel the error is shown exactly when one is set; the
      empty state, the results and the error never show together; nothing
      but the error shows while searching; and once a search has completed
      without error, exactly one of the empty state and the results
      shows. */
  lemma PanelsExclusive(p: SearchPanel)
    requires p.Valid()
    ensures p.ErrorShown() <==> p.error.Some?
    ensures !(p.EmptyStateShown() && p.ResultsShown())
    ensures p.ErrorShown() ==> !p.EmptyStateShown() && !p.ResultsShown()
    ensures p.loading ==> !p.EmptyStateShown() && !p.ResultsShown()
    ensures p.hasSearched && !p.loading && p.error.None? ==>
      (p.EmptyStateShown() <==> !p.ResultsShown())
  {
  }

  /** A search that fails shows the error alone; one that succeeds shows
      the empty state when nothing was found and the results otherwise. */
  method SearchScenario(query: string, outcome: Result<seq<Hit>, string>)
    returns (sent: Option<(string, nat)>, errorShown: bool, emptyShown: bool, resultsShown: bool)
    ensures sent.None? <==> Blank(query)
    ensures sent.Some? ==> sent.value.0 == Trim(query) && sent.value.0 != "" && sent.value.1 == 5
    ensures sent.Some? && outcome.Err? ==> errorShown && !emptyShown && !resultsShown
    ensures sent.Some? && outcome.Ok? ==>
      !errorShown && (emptyShown <==> outcome.value == []) && (resultsShown <==> outcome.value != [])
    ensures sent.None? ==> !errorShown && !emptyShown && !resultsShown
  {
    var panel := new SearchPanel();
    panel.SetQuery(query);
    sent := panel.BeginSearch();
    if sent.Some? {
      panel.CompleteSearch(outcome);
    }
    errorShown, emptyShown, resultsShown := panel.ErrorShown(), panel.EmptyStateShown(), panel.ResultsShown();
  }
}
