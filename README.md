# GenAI Notes — a verified model of the note-taking core

GenAI Notes is a React note-taking application backed by a hosted database
and a chat-completion service. Notes have a title, content and a list of
tags. The interface can filter notes by tag, ask the AI service for a title,
a summary or a note expanded from shorthand, search notes by meaning, and
show usage analytics. This project models the in-memory logic around the
note collection in Dafny and proves what that logic promises:

- **Notes provider** (`notes_context.dfy`). The note list, its loading
  flag and its error, with fetch, create, update and delete. The fetch
  applies the identifier check and falls back to the demo notes.
- **Note editor**, newer (`note_form.dfy`) and older
  (`legacy_note_form.dfy`). The tag input rules, form validity, the
  button states, submit, the editing effect, and the AI actions with their
  automatic and manual retries.
- **Tag filter** (`tag_filter.dfy`). The distinct tags in order of first
  appearance, the per-tag counts, the filter buttons and the status line.
- **Notes list**, newer (`notes_list.dfy`) and older
  (`legacy_notes_list.dfy`). Which view is rendered, the expand toggle,
  delete, and the per-note summaries with their retry counters.
- **Analytics**. The locally stored counters (`analytics_context.dfy`).
  The dashboard that counts notes, tags and usage rows
  (`analytics_dashboard.dfy`). The older dashboard that reads the stored
  counters (`legacy_analytics_dashboard.dfy`). Also the agreement between
  the filter bar's and the dashboard's tag counts (`tag_consistency.dfy`).
- **AI service** (`ai_service.dfy`). The usage row written per call, the
  request each call sends, error and trimming of the completion, and
  title truncation.
- **Embedding maintenance script** (`regenerate_embeddings.dfy`). Text
  normalisation, and the loop that re-embeds every note and counts
  successes and errors.
- **Semantic search panel** (`semantic_search.dfy`). Its state machine and
  which panels show.

Shared modules:

- `wrappers.dfy`: `Option` and `Result`.
- `seqs.dfy`: filter, count, sub-sequence, deduplication and sum over
  sequences. Each is defined by peeling the last element, so loop
  invariants over `s[..i]` line up with them.
- `counters.dfy`: JavaScript objects used as counters, where an absent
  key reads as 0.
- `text.dfy`: `trim`, `\s`, `toLowerCase` and string truthiness over
  ASCII.
- `note.dfy`: the note row, its tags (`note.tags || []`) and the
  selected-tag filter.

The database, the completion and embedding services, `window.confirm`,
`localStorage` with JSON parsing, the clock and the random identifier
generator are parameters. They are passed either as values (the response
to a query, the user's answer) or as functions (`insert`, `update`,
`remove`, `complete`, `embed`, `parse`, `localDate`). An asynchronous
handler whose in-flight state is visible on screen is split into a
`Begin…` and a `Complete…` method. Any other handler is one method that
runs to its `finally`.

## Model

| member | source | states |
|---|---|---|
| NotesContext.UuidLayout | src/NotesContext.jsx:55-56 | an accepted identifier is 36 characters: hyphens at 8, 13, 18 and 23, hex digits elsewhere, a version digit 1-5 and a variant digit 8, 9, a or b (a corollary of `IsUuid`'s definition) |
| NotesContext.UuidIgnoresCase | src/NotesContext.jsx:55 | the identifier check accepts an identifier iff it accepts its lower-cased form (the `i` flag) |
| NotesContext.DemoNotes | src/NotesContext.jsx:20-49 | four demo notes carrying the given identifiers and timestamps, each with two distinct tags |
| NotesContext.LoadedNotesSpec | src/NotesContext.jsx:18-94 | after a successful fetch the list is exactly the rows with a valid identifier, in order and with multiplicity, or the demo notes when no row is valid or there are no rows |
| NotesContext.ValidRowsEmpty | src/NotesContext.jsx:53-59 | no row survives the check iff no row has a valid identifier |
| NotesContext.WithTagArray | src/NotesContext.jsx:106-109 | the draft sent keeps title and content and always carries an array of tags: the given one, or `[]` |
| NotesContext.ReplaceById | src/NotesContext.jsx:124 | same length; every note carrying the identifier is replaced by the returned row and every other note is kept in place |
| NotesContext.ReplaceByIdSpec | src/NotesContext.jsx:124 | identifiers unchanged when the row keeps its identifier; another note stays listed iff listed under another identifier; the row is listed iff it was or some note carried the identifier |
| NotesContext.RemoveByIdSpec | src/NotesContext.jsx:131 | deleting keeps an order-preserving sub-sequence, removes every note with the identifier and keeps every other note with its multiplicity |
| NotesContext.DeleteUndoesCreate | src/NotesContext.jsx:112-131 | deleting a just-created note whose identifier is fresh restores the list |
| NotesContext.NotesStore.constructor | src/NotesContext.jsx:7-9 | empty list, loading, no error |
| NotesContext.NotesStore.FetchNotes | src/NotesContext.jsx:12-97 | a query error keeps the list and records the message; otherwise the list becomes the loaded notes and the error is cleared; never loading afterwards |
| NotesContext.NotesStore.CreateNote | src/NotesContext.jsx:104-113 | on success the returned row is prepended; on an error the message is thrown and the list is unchanged |
| NotesContext.NotesStore.UpdateNote | src/NotesContext.jsx:116-125 | on success the row replaces the notes with that identifier; on an error the message is thrown and the list is unchanged |
| NotesContext.NotesStore.DeleteNote | src/NotesContext.jsx:128-132 | on success every note with the identifier is removed; on an error the message is thrown and the list is unchanged |
| NoteForm.AddTag | src/components/notes/NoteForm.jsx:8-14 | the old tags are a prefix of the result, which has at most one more tag; a tag is listed iff it was or it is the trimmed input and not empty |
| NoteForm.RemoveTag | src/components/notes/NoteForm.jsx:16-18 | the removed tag is absent afterwards and the list does not grow |
| NoteForm.RemoveTagSpec | src/components/notes/NoteForm.jsx:17 | removal keeps an order-preserving sub-sequence holding every other tag with its multiplicity |
| NoteForm.RemoveUndoesAdd | src/components/notes/NoteForm.jsx:8-18 | removing a freshly added tag restores the list |
| NoteForm.AddTagIdempotent | src/components/notes/NoteForm.jsx:10 | adding the same input twice adds it once (a corollary of `AddTag`'s contract) |
| NoteForm.AddTagWellFormed | src/components/notes/NoteForm.jsx:9-11 | adding keeps the list free of duplicates and of blank or untrimmed tags |
| NoteForm.RemoveTagWellFormed | src/components/notes/NoteForm.jsx:16-18 | removing keeps the list free of duplicates and of blank or untrimmed tags |
| NoteForm.AddEnabledGrows | src/components/notes/NoteForm.jsx:61 | when the Add button is enabled and the trimmed input is new, the tag is appended |
| NoteForm.FormValidSpec | src/components/notes/NoteForm.jsx:168 | the form is valid iff title and content are not all whitespace and there is a tag; submit is enabled iff not saving and valid |
| NoteForm.RequiredShownSpec | src/components/notes/NoteForm.jsx:197-222 | "is required" shows iff the field is non-empty and all whitespace, and then submit is disabled |
| NoteForm.RetryDelay | src/components/notes/NoteForm.jsx:139-143 | an automatic retry is scheduled iff the attempt number is below 2, after 1000 × (attempt + 1) ms |
| NoteForm.AttemptsFrom | src/components/notes/NoteForm.jsx:130-147 | attempts stop at the first success or at attempt 2, and every earlier attempt failed |
| NoteForm.AttemptsPerClick | src/components/notes/NoteForm.jsx:137-143 | one click makes 1 to 3 attempts, and 3 exactly when the first two fail |
| NoteForm.AiButtonsSpec | src/components/notes/NoteForm.jsx:190-242 | an AI button is enabled iff its own action is not in flight and its input is not all whitespace |
| NoteForm.Form.constructor | src/components/notes/NoteForm.jsx:75-83 | every field empty, not saving, no AI action, retry count 0 |
| NoteForm.Form.AddTagClick | src/components/notes/NoteForm.jsx:8-14 | the tags become the add rule's result, the input is cleared, nothing else changes |
| NoteForm.Form.RemoveTagClick | src/components/notes/NoteForm.jsx:39 | the tags become the remove rule's result, nothing else changes |
| NoteForm.Form.LoadEditing | src/components/notes/NoteForm.jsx:85-99 | the fields are loaded from the note being edited or cleared; shorthand, AI state and retry count are reset |
| NoteForm.Form.Submit | src/components/notes/NoteForm.jsx:101-128 | the note is updated when editing and created otherwise (`SaveOutcome`); on success the fields are cleared, on failure they are kept with the message; never saving afterwards; the AI state is untouched |
| NoteForm.Form.BeginAutoTitle | src/components/notes/NoteForm.jsx:130-132 | the title action is in flight, the AI error is cleared, the content is sent |
| NoteForm.Form.CompleteAutoTitle | src/components/notes/NoteForm.jsx:133-146 | success sets the title and resets the retry count; failure records "AI error: " + message and returns the retry delay; no action in flight afterwards |
| NoteForm.Form.BeginGenerate | src/components/notes/NoteForm.jsx:149-151 | the shorthand action is in flight, the AI error is cleared, the shorthand is sent |
| NoteForm.Form.CompleteGenerate | src/components/notes/NoteForm.jsx:152-165 | success sets the content and resets the retry count; failure records "AI error: " + message and returns the retry delay; no action in flight afterwards |
| NoteForm.Form.ClickRetryAsWritten | src/components/notes/NoteForm.jsx:266-276 | the Retry button as written bumps the retry count and re-runs no AI action. Being a submit button without a validity gate, on the first manual retry it saves the current fields exactly as Submit (lines 101-128) does through the enclosing `<form>` (line 171). On the second, the re-render removes it first, so nothing is saved and the fields stay |
| NoteForm.Form.ClickRetry | src/components/notes/NoteForm.jsx:266-272 | the corrected Retry (a `type="button"` button) bumps the retry count, re-runs the action that failed, and neither submits nor touches the fields |
| NoteForm.RetryAfterFailedAutoTitle | src/components/notes/NoteForm.jsx:266-276 | after a failed auto-title, Retry as written re-runs nothing and the corrected one re-runs the title action |
| NoteForm.RetrySavesInvalidNote | src/components/notes/NoteForm.jsx:266-289 | on an empty form whose auto-title failed the submit button is disabled, yet Retry as written sends an empty title, empty content and no tags to the store, and the note is saved when the store accepts it |
| NoteForm.EnterGate | src/components/notes/NoteForm.jsx:266-289 | as intended, Enter in the title input submits only a valid form that is not saving. As written it agrees except while Retry is shown: on the first manual retry it also submits an invalid or saving form, and on the second it submits nothing, not even a valid form |
| LegacyNoteForm.NewerFormIsStricter | src/NoteForm.jsx:133-182 | whatever the older form disables the newer one disables too, and whatever the newer one submits the older one submits too; the AI buttons differ exactly on non-empty all-whitespace input, submission exactly on non-empty fields of which one is all whitespace, or no tags, while not saving |
| LegacyNoteForm.Form.constructor | src/NoteForm.jsx:53-60 | every field empty, not saving, no AI action |
| LegacyNoteForm.Form.AddTagClick | src/NoteForm.jsx:8-14 | the tags follow the same add rule as the newer form and the input is cleared |
| LegacyNoteForm.Form.RemoveTagClick | src/NoteForm.jsx:16-18 | the tags follow the same remove rule as the newer form |
| LegacyNoteForm.Form.LoadEditing | src/NoteForm.jsx:62-75 | the fields are loaded or cleared; shorthand and AI state are reset |
| LegacyNoteForm.Form.Submit | src/NoteForm.jsx:77-104 | update or create (`NoteForm.SaveOutcome`); success clears the fields, failure keeps them and sets the error; never saving afterwards |
| LegacyNoteForm.Form.ClickSubmit | src/NoteForm.jsx:133-185 | the form is submitted exactly when it is not saving and neither `required` field is empty; a refused submission changes nothing; otherwise it is Submit |
| LegacyNoteForm.Form.BeginAi | src/NoteForm.jsx:106-108 | the action is in flight, the AI error is cleared, content or shorthand is sent |
| LegacyNoteForm.Form.CompleteAi | src/NoteForm.jsx:109-130 | success sets the title or the content; failure records "AI error: " + message; no retry; no action in flight afterwards |
| TagFilter.CollectTags | src/components/notes/TagFilter.jsx:8-14 | the listed tags are the distinct tags in order of first appearance, without duplicates, and a tag is listed iff some note carries it |
| TagFilter.AddEach | src/components/notes/TagFilter.jsx:11 | adding one note's tags to the set extends the distinct tags seen so far |
| TagFilter.ListedIffCarried | src/TagFilter.jsx:10-11 | a tag is listed iff some note carries it |
| TagFilter.TagsInFirstAppearanceOrder | src/TagFilter.jsx:8-14 | listed tags appear in the order in which they first occur |
| TagFilter.TagCountPositive | src/components/notes/TagFilter.jsx:34-35 | every listed tag has a count of at least one, and only listed tags do |
| TagFilter.AllCount | src/components/notes/TagFilter.jsx:32 | the All button counts exactly the notes shown with no selection |
| TagFilter.Click | src/TagFilter.jsx:24-37 | All clears the selection and a tag button selects its tag |
| TagFilter.ClickThenFilter | src/components/notes/TagFilter.jsx:17-19 | after All every note is shown; after a tag button as many notes are shown as the button counted |
| TagFilter.StatusLine | src/components/notes/TagFilter.jsx:50-53 | the status line shows iff a tag is selected, with the number of notes carrying it and "note" iff that number is 1 |
| NoteModel.FilteredNotesSpec | src/components/notes/NotesList.jsx:13-15 | no selection shows all notes; a selected tag shows an order-preserving sub-sequence holding exactly the notes that carry it, with multiplicity |
| NoteModel.OccurrencesMembership | src/components/notes/TagFilter.jsx:10-11 | a tag occurs among the notes' tags iff some note carries it |
| NotesList.Render | src/components/notes/NotesList.jsx:48-73 | loading first, then a non-empty error, then the empty state when nothing passes the filter, otherwise the filtered list |
| NotesList.Toggle | src/components/notes/NotesList.jsx:90 | a click expands the note unless it was the expanded one, which collapses |
| NotesList.ToggleTwice | src/components/notes/NotesList.jsx:79-90 | a second click on the same note undoes the first |
| NotesList.ListState.constructor | src/components/notes/NotesList.jsx:7-11 | nothing expanded, no summaries, no retries, nothing in flight |
| NotesList.ListState.ClickNote | src/components/notes/NotesList.jsx:90 | the expanded note follows the toggle and nothing else changes |
| NotesList.ListState.HandleDelete | src/components/notes/NotesList.jsx:36-46 | nothing happens without confirmation; a confirmed delete goes through the store, collapses the note on success and alerts on failure |
| NotesList.ListState.BeginSummarize | src/components/notes/NotesList.jsx:17-19 | that note's summary is in flight and the summary error is cleared |
| NotesList.ListState.CompleteSummarize | src/components/notes/NotesList.jsx:20-33 | success stores the summary and resets that note's retry count only; failure records "AI error: " + message and returns the retry delay; nothing in flight afterwards |
| NotesList.ListState.ClickRetry | src/components/notes/NotesList.jsx:139-142 | one more retry is counted for that note only, and its summary is re-run |
| NotesList.ErrorBoxNeverShown | src/components/notes/NotesList.jsx:134 | the error box as written is never shown: whenever an error is set no summary is in flight |
| NotesList.FailedSummaryScenario | src/components/notes/NotesList.jsx:17-34 | after a failed summary the box as written stays hidden and the corrected box shows |
| LegacyNotesList.RenderedNotes | src/NotesList.jsx:7-13 | with no error and not loading: all notes without a selection, the empty state when there are none, otherwise an order-preserving sub-sequence of notes carrying the tag |
| LegacyNotesList.ClickDelete | src/NotesList.jsx:37 | Delete goes to the store with no confirmation; a failure is not caught and leaves the list unchanged |
| AnalyticsContext.DefaultAnalytics | src/AnalyticsContext.jsx:5-9 | no notes counted, the three features at zero, no tags counted |
| AnalyticsContext.LoadAnalytics | src/AnalyticsContext.jsx:11-18 | the default object when nothing or an empty string is stored or parsing fails, otherwise the parsed object |
| AnalyticsContext.DayKey | src/AnalyticsContext.jsx:33 | the key is the longest prefix without a "T", and the date continues with "T" when it is shorter |
| AnalyticsContext.DayKeyOfTimestamp | src/AnalyticsContext.jsx:33 | the key of "day" and of "day" + "T" + time is the day |
| AnalyticsContext.AnalyticsProvider.constructor | src/AnalyticsContext.jsx:25 | the state starts from what is loaded |
| AnalyticsContext.AnalyticsProvider.LogNoteCreated | src/AnalyticsContext.jsx:31-41 | the day's count gains one, each tag gains one per occurrence with a missing list as none, and AI usage is unchanged |
| AnalyticsContext.AnalyticsProvider.LogAIUsage | src/AnalyticsContext.jsx:43-48 | the named feature gains one and nothing else changes |
| AnalyticsContext.NoteCreatedCounts | src/AnalyticsContext.jsx:34-39 | per key: the logged day gains exactly one and other days are unchanged; a tag gains its number of occurrences and absent tags are unchanged |
| Counters.BumpEach | src/AnalyticsContext.jsx:36-38 | the counter loop raises every key by its number of occurrences in the list |
| AnalyticsDashboard.CountUsage | src/components/analytics/AnalyticsDashboard.jsx:59-64 | each of the three features is counted by its number of rows, other rows are ignored, and the total does not exceed the rows |
| AnalyticsDashboard.UsageCountsCalls | src/components/analytics/AnalyticsDashboard.jsx:59-64 | counting the usage rows gives, per feature, the number of AI service calls for it |
| AnalyticsDashboard.UsageStats.constructor | src/components/analytics/AnalyticsDashboard.jsx:41-43 | zero usage, loading, no error; the spinner shows |
| AnalyticsDashboard.UsageStats.FetchUsage | src/components/analytics/AnalyticsDashboard.jsx:46-72 | a query error or a throw sets the fixed message and keeps the usage; rows are counted per feature, with missing data as none; never loading afterwards; the section then shows the error or the chart of those counts |
| AnalyticsDashboard.UsageStats.Panel | src/components/analytics/AnalyticsDashboard.jsx:177-194 | the AI usage section shows the spinner exactly while loading, the error exactly when not loading and an error is set, and otherwise the chart of the three counters |
| AnalyticsDashboard.AiDataCountsCalls | src/components/analytics/AnalyticsDashboard.jsx:94-95 | fed with the counted usage rows, the three bars are the numbers of summarize, autoTitle and generate calls, in that order |
| AnalyticsDashboard.TallyTags | src/components/analytics/AnalyticsDashboard.jsx:98-103 | each tag's count is its number of occurrences across the notes' tags |
| AnalyticsDashboard.TallyConcat | src/components/analytics/AnalyticsDashboard.jsx:99-103 | counting two lists one after the other equals counting their concatenation |
| AnalyticsDashboard.InsertDesc | src/components/analytics/AnalyticsDashboard.jsx:104 | inserting keeps every entry and adds the new one |
| AnalyticsDashboard.InsertDescSorted | src/components/analytics/AnalyticsDashboard.jsx:104 | inserting into a list sorted by decreasing count keeps it sorted |
| AnalyticsDashboard.SortDesc | src/components/analytics/AnalyticsDashboard.jsx:104 | the sort is a permutation in non-increasing order of count |
| AnalyticsDashboard.TopTags | src/components/analytics/AnalyticsDashboard.jsx:104 | at most ten entries, exactly ten when there are that many, sorted by decreasing count, drawn from the entries |
| AnalyticsDashboard.TopTagsOmitSmaller | src/components/analytics/AnalyticsDashboard.jsx:104 | an entry left out counts no more than any entry kept |
| AnalyticsDashboard.LabelsDataAligned | src/components/analytics/AnalyticsDashboard.jsx:105-106 | label i is a counted tag and datum i is its count, and the data do not increase |
| AnalyticsDashboard.TagEmptyStateSpec | src/components/analytics/AnalyticsDashboard.jsx:248 | "No tag data available" shows iff no note has a tag |
| AnalyticsDashboard.NoteDay | src/components/analytics/AnalyticsDashboard.jsx:33-37 | a note without a timestamp, or with an empty one, has no day |
| AnalyticsDashboard.NotesPerDayAt | src/components/analytics/AnalyticsDashboard.jsx:86-91 | bar i counts the notes whose local day is day i |
| AnalyticsDashboard.NotesPerDayBound | src/components/analytics/AnalyticsDashboard.jsx:86-91 | over distinct days the bars add up to the notes dated on those days, never more than the notes |
| AnalyticsDashboard.UndatedNotCounted | src/components/analytics/AnalyticsDashboard.jsx:34 | an undated note adds to no bar (a corollary of `DayCount`'s definition) |
| LegacyAnalyticsDashboard.StoredNotesPerDay | src/AnalyticsDashboard.jsx:32-33 | one bar per day: the stored count, or 0 when absent |
| LegacyAnalyticsDashboard.NoteCreatedRaisesItsDay | src/AnalyticsDashboard.jsx:33 | logging a note raises its own day's bar by one and leaves the others |
| LegacyAnalyticsDashboard.StoredAiData | src/AnalyticsDashboard.jsx:36-37 | summarize, autoTitle, generate in that order, each defined iff stored, with its stored value |
| LegacyAnalyticsDashboard.AiUsageBars | src/AnalyticsDashboard.jsx:37 | from the default object every bar is 0; a logged use raises exactly its own bar by one (a corollary of the contracts of `Bump` and `Get`) |
| LegacyAnalyticsDashboard.StoredTopTags | src/AnalyticsDashboard.jsx:40-42 | at most ten entries sorted by decreasing count; labels and data aligned with the stored counts; none when nothing is stored |
| TagConsistency.CountsAgree | src/components/notes/TagFilter.jsx:35 | with no tag repeated inside a note, the filter bar's count, the occurrence count and the dashboard's tally agree |
| TagConsistency.FormTagsKeepAgreement | src/components/notes/NoteForm.jsx:10 | a note saved from the form keeps the counts in agreement |
| TagConsistency.CountsDifferOnRepeatedTag | src/components/analytics/AnalyticsDashboard.jsx:100-101 | a note tagged "a" twice counts once on the filter bar and twice on the dashboard |
| AiService.FeatureName | src/services/ai.js:35-53 | each call logs one of "summarize", "generate", "autoTitle" |
| AiService.FeatureNameInjective | src/services/ai.js:35-53 | different calls log different names |
| AiService.CallCompletion | src/services/ai.js:14-32 | a non-success response is the error "AI API error: " followed by its body text; an exception keeps its message; a completion comes back trimmed, so with no outer whitespace; a result exists iff a completion came back |
| AiService.SummarizeNote | src/services/ai.js:34-41 | one "summarize" row is logged; the prompt ends with the note, at most 100 tokens; the result is what `CallCompletion` makes of the completion, so a trimmed summary exactly when the endpoint completes |
| AiService.GenerateNoteFromShorthand | src/services/ai.js:43-50 | one "generate" row is logged; the prompt ends with the shorthand, at most 1000 tokens; the result is what `CallCompletion` makes of the completion, so trimmed content exactly when the endpoint completes |
| AiService.AutoTitleNote | src/services/ai.js:52-62 | one "autoTitle" row is logged; the prompt ends with the note, at most 16 tokens; a title comes back iff the endpoint completes, and it is the truncated trimmed completion; an error is passed through unchanged |
| AiService.TruncateTitle | src/services/ai.js:61 | at most 50 characters; unchanged when short enough; otherwise the first 47 characters followed by "..." |
| AiService.TruncateIdempotent | src/services/ai.js:61 | truncating twice is truncating once (a corollary of `TruncateTitle`'s contract) |
| AiService.AutoTitleShape | src/services/ai.js:31-61 | a title is at most 50 characters with no outer whitespace; a trimmed completion of at most 50 characters is kept as is, and a longer one becomes its first 47 characters followed by "..." |
| AiService.OneUsageRowPerCall | src/services/ai.js:6-12 | each call logs exactly one row, with its own name (a corollary of the call contracts) |
| RegenerateEmbeddings.CollapseEnds | scripts/regenerate-embeddings.js:23 | the result is empty iff the input is, and starts and ends with whitespace iff the input does |
| RegenerateEmbeddings.CollapseRuns | scripts/regenerate-embeddings.js:23 | no two whitespace characters are adjacent and the only whitespace left is the plain space |
| RegenerateEmbeddings.CollapseNonSpace | scripts/regenerate-embeddings.js:23 | the non-whitespace characters are kept, in order |
| RegenerateEmbeddings.CollapseMatchesScan | scripts/regenerate-embeddings.js:23 | collapsing agrees with a left-to-right scan that emits a space at the start of each run |
| RegenerateEmbeddings.CollapseFixpoint | scripts/regenerate-embeddings.js:23 | a string already collapsed is unchanged |
| RegenerateEmbeddings.NonSpaceTrim | scripts/regenerate-embeddings.js:22 | trimming removes only whitespace |
| RegenerateEmbeddings.NonSpaceLower | scripts/regenerate-embeddings.js:24 | lower-casing commutes with dropping whitespace |
| RegenerateEmbeddings.Preprocess | scripts/regenerate-embeddings.js:20-25 | no outer whitespace, no double whitespace, only plain spaces, lower case, and the input's other characters lower-cased in order |
| RegenerateEmbeddings.PreprocessIdempotent | scripts/regenerate-embeddings.js:20-25 | normalising twice is normalising once |
| RegenerateEmbeddings.Regenerate | scripts/regenerate-embeddings.js:42-100 | a fetch error is fatal; otherwise each note is attempted once in order, successes are the notes whose embedding and update both succeed, and successes plus errors equal the notes |
| RegenerateEmbeddings.RegenerateWithService | scripts/regenerate-embeddings.js:28-35 | the success count is that of the notes whose normalised "title, blank line, content" the service embedded and whose update went through; one normalised text per note in order is listed, derived from the texts handed to the generator |
| SemanticSearch.ResultNoun | src/components/notes/SemanticSearch.jsx:100 | "note" iff exactly one result, "notes" otherwise |
| SemanticSearch.SearchPanel.constructor | src/components/notes/SemanticSearch.jsx:5-9 | empty query and results, not searching, no error, no search made |
| SemanticSearch.SearchPanel.SetQuery | src/components/notes/SemanticSearch.jsx:49 | only the query changes |
| SemanticSearch.SearchPanel.BeginSearch | src/components/notes/SemanticSearch.jsx:11-20 | a blank query changes nothing; otherwise searching, error cleared, search recorded, Clear shown, and the trimmed query sent with limit 5 |
| SemanticSearch.SearchPanel.CompleteSearch | src/components/notes/SemanticSearch.jsx:20-28 | success replaces the results; failure sets the fixed message and empties the results; not searching afterwards |
| SemanticSearch.SearchPanel.ClearSearch | src/components/notes/SemanticSearch.jsx:31-36 | query, results, error and the search flag are reset, which hides Clear and every panel |
| SemanticSearch.SubmitMatchesHandler | src/components/notes/SemanticSearch.jsx:56 | a blank query cannot be submitted; when not searching, submit is disabled iff the query is blank |
| SemanticSearch.PanelsExclusive | src/components/notes/SemanticSearch.jsx:79-97 | the error, the empty state and the results never show together, none but the error while searching, and exactly one of the other two after a completed search |
| SemanticSearch.SearchScenario | src/components/notes/SemanticSearch.jsx:11-29 | a failed search shows the error alone; a successful one shows the empty state iff nothing was found and the results otherwise |

## Left out

- The database, the completion service and the embedding service are not modelled. Their outcomes are parameters: the rows, the error messages, the returned row, the embedding.
- `src/services/supabaseClient.js`, `src/services/embeddings.js`, `src/ai.js` and `scripts/seed-database.js` are not part of this model. The older form calls `src/ai.js`, whose outcome is a parameter as well.
- Timers are not modelled. A retry's delay is returned as a number and the retried attempt is a fresh `Begin…`/`Complete…` pair. The 1 s simulated latency and the 100 ms pause between notes are left out.
- Interleaving of asynchronous handlers is not modelled, nor are stale responses arriving after newer input. `SemanticSearch.SearchPanel.CompleteSearch` therefore requires the error cleared by its own `BeginSearch`.
- Dates, the locale and random identifiers are inputs. This covers `getLastNDates`, `toLocaleDateString` (the `localDate` parameter), `toISOString` and `crypto.randomUUID`.
- Floating point is left out: similarity scores, relevance percentages, temperatures and embeddings are carried but never computed with.
- Rendering is left out: charts, ARIA attributes, styles, the landing page, the footer, routing, related notes and the search debugger.
- Of the rendering, only which element shows is modelled, as a predicate or function over state, and only for the elements the members above name: the form's buttons and error lines, the list's summary area, the search states, the tag chart's empty state and the AI usage section.
- `localStorage` and JSON are the `parse` parameter. The stored string is truthy-tested as in the source.
- A stored `"null"` would parse to `null` and break the provider; this model cannot express that, because `parse` returns an `Analytics` value or nothing.
- The effect that saves the analytics back to `localStorage` is not modelled.
- Strings are ASCII: `trim`, `\s`, `toLowerCase` and `substring` follow their ASCII behaviour. Unicode whitespace and case folding are not modelled.
- AnalyticsDashboard.TopTags: the order among entries with equal counts is not stated, because it depends on the key order of `Object.entries`.
- AnalyticsDashboard.LabelsDataAligned: the entries are taken as an input that lists each counted tag exactly once (`IsEntriesOf`), rather than being produced by `Object.entries`.
- Note fields other than identifier, title, content, tags and creation time are not modelled. A `tags` value that is not an array counts as missing.
- The `onSave` callback after an update is a call into code outside the core and is left out.
- NoteForm.Form.ClickRetry and NotesList.ListState.CompleteSummarize use one field that the source does not have: `failedAction` and `failedSummary` respectively. It records which action failed; the corrected behaviour needs it.
- NoteForm.Form.ClickRetryAsWritten and NoteForm.EnterGate assume that React re-renders with the new retry count before the click's default action runs, as it does for a discrete event. A button removed by that re-render has no form owner, so it submits nothing.
- The first two findings below assume that React applies the `catch` and `finally` updates of one handler together, as it does for handlers that run to completion.
- AnalyticsContext.AnalyticsProvider.LogNoteCreated: tags are assumed not to be names that plain JavaScript objects inherit, such as `constructor`, `toString` or `__proto__`. The source counts into a plain object, so such a tag would start from the inherited value (a function, turned into a string by `+ 1`) or be dropped, and the model does not capture that.
- Counters.BumpEach: counts into a map that starts every key at 0. The source's plain object does not do that for inherited property names, as the line above says.
- AnalyticsDashboard.TallyTags: the same assumption about inherited property names. Such a tag would make the count a string and break the numeric sort (`src/components/analytics/AnalyticsDashboard.jsx:104`).
- NotesContext.NotesStore.CreateNote and NotesContext.NotesStore.UpdateNote: an accepted call is assumed to return its row. When the database returns no row, the source puts `undefined` in the list (`src/NotesContext.jsx:112`, `:124`); the returned-row parameter cannot express that.
- NoteForm.EnterGate: Enter in the content and shorthand text areas inserts a line; Enter in the tag input adds a tag and is kept from submitting. Only the title input submits.
- AnalyticsDashboard.UsageStats.FetchUsage: a row whose feature is `null` or unknown is ignored, which is what the `hasOwnProperty` test does. Rows are modelled as strings.
- The older tag filter (`src/TagFilter.jsx`) shares its members with the newer one. Its `filteredNotes` (lines 17-19) is `NoteModel.FilteredNotes`, which it computes but does not render.

## Findings

| source | as written | input that shows it | evidently intended | confidence | as-written member | corrected member |
|---|---|---|---|---|---|---|
| src/components/notes/NoteForm.jsx:266-276 | Retry re-runs the handler whose action `aiLoading` names, but every attempt ends by setting `aiLoading` to `null`. So while the error box is visible, Retry re-runs no AI action. | an auto-title attempt that fails, then a click on Retry | Retry re-runs the AI action that failed | high, not executed | NoteForm.RetryAfterFailedAutoTitle | NoteForm.Form.ClickRetry |
| src/components/notes/NoteForm.jsx:267-276 | the Retry button has no `type` and sits in the form, so it is a submit button. On the first manual retry the click also runs `handleSubmit`, which has no validity check and saves whatever the fields hold. While that Retry is shown, Enter in the title input clicks it too, because it is the form's first submit button. | a new form with empty fields whose auto-title failed, then a click on Retry | Retry is a `type="button"` button, like the form's other buttons, and saves nothing | high, not executed | NoteForm.RetrySavesInvalidNote | NoteForm.Form.ClickRetry |
| src/components/notes/NotesList.jsx:134 | the summary error box requires `loadingSummary === note.id`, but the handler's `finally` sets `loadingSummary` to `null` whenever an error is set. So the box and its Retry button never show. | a summary request that fails for any note | the error box shows under the note whose summary failed | high, not executed | NotesList.ErrorBoxNeverShown | NotesList.ListState.CompleteSummarize |
