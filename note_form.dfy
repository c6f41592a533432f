/** The note editor: the tag input, the validity gate on submit, the form
    fields the handlers and the `editingNote` effect update, and the bounded
    automatic retry of the two AI actions. */
module NoteForm {
  import opened Wrappers
  import opened Seqs
  import opened Text
  import opened NoteModel
  import opened NotesContext

  // ----- Tag input -------------------------------------------------------------

  /** `addTag`: the trimmed input is appended when it is non-empty and not
      already present. The list only ever grows at its end. */
  function AddTag(tags: seq<string>, input: string): (r: seq<string>)
    ensures |tags| <= |r| <= |tags| + 1 && forall i :: 0 <= i < |tags| ==> r[i] == tags[i]
    ensures forall x :: x in r <==> x in tags || (x == Trim(input) && x != "")
  {
    AddNew(tags, Trim(input))
  }

  /** The step after trimming: a tag that is non-empty and new is appended. */
  function AddNew(tags: seq<string>, tag: string): (r: seq<string>)
    ensures |tags| <= |r| <= |tags| + 1 && forall i :: 0 <= i < |tags| ==> r[i] == tags[i]
    ensures forall x :: x in r <==> x in tags || (x == tag && x != "")
  {
    if tag != "" && tag !in tags then tags + [tag] else tags
  }

  /** `removeTag`: `tags.filter(t => t !== tag)`. */
  function RemoveTag(tags: seq<string>, tag: string): (r: seq<string>)
    ensures tag !in r && |r| <= |tags|
  {
    Filter(tags, (t: string) => t != tag)
  }

  /** Removing a tag drops every occurrence of it, keeps every other tag as
      often as before, and keeps their order. */
  lemma RemoveTagSpec(tags: seq<string>, tag: string, x: string)
    ensures IsSubseq(RemoveTag(tags, tag), tags)
    ensures x in RemoveTag(tags, tag) <==> x in tags && x != tag
    ensures Count(RemoveTag(tags, tag), x) == if x == tag then 0 else Count(tags, x)
  {
    var p := (t: string) => t != tag;
    FilterIsSubseq(tags, p);
    FilterMembership(tags, p, x);
    FilterCount(tags, p, x);
  }

  /** Removing a tag that was just added restores the list. */
  lemma RemoveUndoesAdd(tags: seq<string>, input: string)
    requires Trim(input) != "" && Trim(input) !in tags
    ensures RemoveTag(AddTag(tags, input), Trim(input)) == tags
  {
    var t := Trim(input);
    var p := (x: string) => x != t;
    FilterSnoc(tags, t, p);
    FilterKeepsAll(tags, p);
  }

  /** Adding the same input twice adds it once. */
  lemma AddTagIdempotent(tags: seq<string>, input: string)
    ensures AddTag(AddTag(tags, input), input) == AddTag(tags, input)
  {
  }

  /** Tags built by the tag input alone are trimmed, non-empty and
      duplicate-free. */
  predicate WellFormedTags(tags: seq<string>) {
    NoDup(tags) && forall i :: 0 <= i < |tags| ==> tags[i] != "" && NoOuterSpace(tags[i])
  }

  lemma AddTagWellFormed(tags: seq<string>, input: string)
    requires WellFormedTags(tags)
    ensures WellFormedTags(AddTag(tags, input))
  {
    var t := Trim(input);
    if t != "" && t !in tags {
      AppendWellFormed(tags, t);
    }
  }

  /** Appending a new, non-empty, trimmed tag keeps the list well formed. */
  lemma AppendWellFormed(tags: seq<string>, t: string)
    requires WellFormedTags(tags) && t != "" && NoOuterSpace(t) && t !in tags
    ensures WellFormedTags(tags + [t])
  {
    var r := tags + [t];
    forall i, j | 0 <= i < j < |r| ensures r[i] != r[j] {
      assert r[i] == tags[i];
      if j < |tags| {
        assert r[j] == tags[j];
      } else {
        assert tags[i] in tags;
      }
    }
    forall i | 0 <= i < |r| ensures r[i] != "" && NoOuterSpace(r[i]) {
      if i < |tags| {
        assert r[i] == tags[i];
      }
    }
  }

  lemma {:induction false} RemoveTagWellFormed(tags: seq<string>, tag: string)
    requires WellFormedTags(tags)
    ensures WellFormedTags(RemoveTag(tags, tag))
  {
    var r := RemoveTag(tags, tag);
    FilterNoDup(tags, (t: string) => t != tag);
    forall i | 0 <= i < |r| ensures r[i] != "" && NoOuterSpace(r[i]) {
      assert r[i] in tags;
      var j :| 0 <= j < |tags| && tags[j] == r[i];
    }
  }

  /** The Add button is enabled iff the input is not blank. */
  predicate AddDisabled(input: string) {
    Blank(input)
  }

  /** With the Add button enabled and a new tag, the list grows by one. */
  lemma AddEnabledGrows(tags: seq<string>, input: string)
    requires !AddDisabled(input) && Trim(input) !in tags
    ensures AddTag(tags, input) == tags + [Trim(input)]
  {
  }

  // ----- Validity ------------------------------------------------------------------

  /** `isFormValid`. */
  predicate IsFormValid(title: string, content: string, tags: seq<string>) {
    !Blank(title) && !Blank(content) && |tags| > 0
  }

  /** The submit button's `disabled`. */
  predicate SubmitDisabled(loading: bool, title: string, content: string, tags: seq<string>) {
    loading || !IsFormValid(title, content, tags)
  }

  /** The "Title is required" (or "Content is required") line. */
  predicate RequiredShown(field: string) {
    Blank(field) && field != ""
  }

  /** The form is valid iff title and content each hold a non-whitespace
      character and there is a tag; submit is enabled iff the form is valid
      and not saving. */
  lemma FormValidSpec(loading: bool, title: string, content: string, tags: seq<string>)
    ensures IsFormValid(title, content, tags) <==>
      !AllSpace(title) && !AllSpace(content) && tags != []
    ensures !SubmitDisabled(loading, title, content, tags) <==>
      !loading && !AllSpace(title) && !AllSpace(content) && tags != []
  {
    BlankIffAllSpace(title);
    BlankIffAllSpace(content);
  }

  /** The "required" line shows iff the field is non-empty but all
      whitespace, and whenever it shows, submit is disabled. */
  lemma RequiredShownSpec(loading: bool, title: string, content: string, tags: seq<string>)
    ensures RequiredShown(title) <==> title != "" && AllSpace(title)
    ensures RequiredShown(content) <==> content != "" && AllSpace(content)
    ensures RequiredShown(title) || RequiredShown(content) ==> SubmitDisabled(loading, title, content, tags)
  {
    BlankIffAllSpace(title);
    BlankIffAllSpace(content);
  }

  // ----- Bounded retry ---------------------------------------------------------

  /** How many automatic retries follow one click. */
  const MaxRetries: nat := 2

  /** After attempt `attempt` (0 for the click) fails: the delay before the
      next attempt, or None when no further attempt is scheduled. */
  function RetryDelay(attempt: nat): (d: Option<nat>)
    ensures d.Some? <==> attempt < MaxRetries
    ensures d.Some? ==> d.value == 1000 * (attempt + 1) && 1000 <= d.value <= 2000
  {
    if attempt < MaxRetries then Some(1000 * (attempt + 1)) else None
  }

  /** The number of attempts made from attempt `attempt` on, when attempt `i`
      succeeds iff `succeeds(i)`: the chain stops at the first success or
      when no retry is scheduled. */
  function AttemptsFrom(attempt: nat, succeeds: nat -> bool): (n: nat)
    decreases MaxRetries - attempt
    ensures n >= 1
    ensures attempt < MaxRetries ==> attempt + n <= MaxRetries + 1
    ensures attempt >= MaxRetries ==> n == 1
    ensures forall i :: attempt <= i < attempt + n - 1 ==> !succeeds(i)
    ensures succeeds(attempt + n - 1) || attempt + n - 1 >= MaxRetries
  {
    if succeeds(attempt) then 1
    else match RetryDelay(attempt)
      case None => 1
      case Some(_) => 1 + AttemptsFrom(attempt + 1, succeeds)
  }

  /** One click leads to at most three attempts, and to exactly three when
      the first two fail. */
  lemma AttemptsPerClick(succeeds: nat -> bool)
    ensures 1 <= AttemptsFrom(0, succeeds) <= 3
    ensures AttemptsFrom(0, succeeds) == 3 <==> !succeeds(0) && !succeeds(1)
  {
    if !succeeds(0) && !succeeds(1) {
      assert AttemptsFrom(1, succeeds) == 1 + AttemptsFrom(2, succeeds);
    }
  }

  /** What one save of the draft `d` comes to in the store, whose notes go
      from `before` to `after`: a new note is created when nothing is being
      edited and the edited note is updated otherwise; a rejected call
      leaves the notes alone and hands back its message as `thrown`. */
  predicate SaveOutcome(editing: Option<Note>, d: Draft, before: seq<Note>, after: seq<Note>,
                        thrown: Option<string>,
                        insert: Draft -> Result<Note, string>,
                        update: (string, Draft) -> Result<Note, string>)
  {
    var sent := WithTagArray(d);
    && (editing.None? ==>
          (insert(sent).Err? ==> thrown == Some(insert(sent).error) && after == before)
          && (insert(sent).Ok? ==> thrown == None && after == [insert(sent).value] + before))
    && (editing.Some? ==>
          var res := update(editing.value.id, sent);
          (res.Err? ==> thrown == Some(res.error) && after == before)
          && (res.Ok? ==> thrown == None && after == ReplaceById(before, editing.value.id, res.value)))
  }

  // ----- Form state ------------------------------------------------------------

  /** The AI action in flight: `aiLoading` is 'title' or 'shorthand'. */
  datatype AiAction = TitleAction | ShorthandAction

  /** The form's state. `tagInput` is the tag input's own field. The
      `failedAction` field is not in the source: it is what the corrected
      Retry button needs (see `ClickRetry`). */
  class Form {
    var title: string
    var content: string
    var tags: seq<string>
    var tagInput: string
    var loading: bool
    var error: Option<string>
    var aiLoading: Option<AiAction>
    var aiError: Option<string>
    var shorthand: string
    var retryCount: nat
    var failedAction: Option<AiAction>

    /** An AI error is only ever shown once no AI action is in flight, and
        it is shown exactly when the last action failed. */
    predicate Valid()
      reads this
    {
      && (aiError.Some? ==> aiLoading.None?)
      && (aiError.Some? <==> failedAction.Some?)
    }

    constructor ()
      ensures Valid()
      ensures title == "" && content == "" && tags == [] && tagInput == "" && shorthand == ""
      ensures !loading && error == None && aiLoading == None && aiError == None && retryCount == 0
    {
      title, content, tags, tagInput, shorthand := "", "", [], "", "";
      loading, error := false, None;
      aiLoading, aiError, retryCount, failedAction := None, None, 0, None;
    }

    /** The Add button or Enter: the tag list becomes `AddTag(tags, input)`
        and the input is cleared in every case. */
    method AddTagClick()
      modifies this
      ensures tags == AddTag(old(tags), old(tagInput)) && tagInput == ""
      ensures title == old(title) && content == old(content) && shorthand == old(shorthand)
      ensures loading == old(loading) && error == old(error)
      ensures aiLoading == old(aiLoading) && aiError == old(aiError)
      ensures retryCount == old(retryCount) && failedAction == old(failedAction)
    {
      tags := AddTag(tags, tagInput);
      tagInput := "";
    }

    /** A tag's remove button. */
    method RemoveTagClick(tag: string)
      modifies this
      ensures tags == RemoveTag(old(tags), tag)
      ensures title == old(title) && content == old(content) && shorthand == old(shorthand)
      ensures tagInput == old(tagInput) && loading == old(loading) && error == old(error)
      ensures aiLoading == old(aiLoading) && aiError == old(aiError)
      ensures retryCount == old(retryCount) && failedAction == old(failedAction)
    {
      tags := RemoveTag(tags, tag);
    }

    /** The `editingNote` effect: load the note's fields (missing tags read
        as none) or clear them, and reset the shorthand and all AI state. */
    method LoadEditing(editing: Option<Note>)
      modifies this
      ensures Valid()
      ensures editing.Some? ==>
        title == editing.value.title && content == editing.value.content && tags == TagsOf(editing.value)
      ensures editing.None? ==> title == "" && content == "" && tags == []
      ensures shorthand == "" && aiError == None && aiLoading == None && retryCount == 0
      ensures tagInput == old(tagInput) && loading == old(loading) && error == old(error)
    {
      if editing.Some? {
        title, content, tags := editing.value.title, editing.value.content, TagsOf(editing.value);
      } else {
        title, content, tags := "", "", [];
      }
      shorthand := "";
      aiError, aiLoading, retryCount, failedAction := None, None, 0, None;
    }

    /** `handleSubmit`: update the note being edited, or create a new one,
        through the store. On success the title, content and tags are
        cleared; on failure they are kept and the message is shown. Saving
        ends in both cases. */
    method Submit(editing: Option<Note>, store: NotesStore,
                  insert: Draft -> Result<Note, string>,
                  update: (string, Draft) -> Result<Note, string>)
      returns (thrown: Option<string>)
      modifies this, store
      ensures SaveOutcome(editing, Draft(old(title), old(content), Some(old(tags))),
                          old(store.notes), store.notes, thrown, insert, update)
      ensures store.loading == old(store.loading) && store.error == old(store.error)
      ensures thrown.None? ==> title == "" && content == "" && tags == [] && error == None
      ensures thrown.Some? ==>
        title == old(title) && content == old(content) && tags == old(tags) && error == thrown
      ensures !loading
      ensures tagInput == old(tagInput) && shorthand == old(shorthand)
      ensures aiLoading == old(aiLoading) && aiError == old(aiError)
      ensures retryCount == old(retryCount) && failedAction == old(failedAction)
    {
      loading := true;
      error := None;
      var draft := Draft(title, content, Some(tags));
      if editing.Some? {
        thrown := store.UpdateNote(editing.value.id, draft, update);
      } else {
        thrown := store.CreateNote(draft, insert);
      }
      if thrown.None? {
        title, content, tags := "", "", [];
      } else {
        error := thrown;
      }
      loading := false;
    }

    /** The auto-title button (or a scheduled retry) starts an attempt:
        the content it sends is returned. */
    method BeginAutoTitle() returns (sent: string)
      requires Valid()
      modifies this
      ensures Valid()
      ensures sent == content
      ensures aiLoading == Some(TitleAction) && aiError == None && failedAction == None
      ensures title == old(title) && content == old(content) && tags == old(tags)
      ensures shorthand == old(shorthand) && tagInput == old(tagInput)
      ensures loading == old(loading) && error == old(error) && retryCount == old(retryCount)
    {
      aiLoading, aiError, failedAction := Some(TitleAction), None, None;
      sent := content;
    }

    /** The auto-title attempt number `attempt` ends with `result`: a title
        replaces the current one and resets the retry count; an error is
        shown with the prefix "AI error: ", and the delay of the next
        automatic attempt, if any, is returned. Either way no AI action is
        in flight afterwards. */
    method CompleteAutoTitle(attempt: nat, result: Result<string, string>) returns (retryAfter: Option<nat>)
      requires Valid()
      modifies this
      ensures Valid()
      ensures aiLoading == None
      ensures result.Ok? ==>
        title == result.value && retryCount == 0 && retryAfter == None
        && aiError == old(aiError) && failedAction == old(failedAction)
      ensures result.Err? ==>
        title == old(title) && retryCount == old(retryCount) && retryAfter == RetryDelay(attempt)
        && aiError == Some("AI error: " + result.error) && failedAction == Some(TitleAction)
      ensures content == old(content) && tags == old(tags) && shorthand == old(shorthand)
      ensures tagInput == old(tagInput) && loading == old(loading) && error == old(error)
    {
      retryAfter := None;
      match result {
        case Ok(value) =>
          title := value;
          retryCount := 0;
        case Err(message) =>
          aiError := Some("AI error: " + message);
          failedAction := Some(TitleAction);
          retryAfter := RetryDelay(attempt);
      }
      aiLoading := None;
    }

    /** The generate button (or a scheduled retry) starts an attempt: the
        shorthand it sends is returned. */
    method BeginGenerate() returns (sent: string)
      requires Valid()
      modifies this
      ensures Valid()
      ensures sent == shorthand
      ensures aiLoading == Some(ShorthandAction) && aiError == None && failedAction == None
      ensures title == old(title) && content == old(content) && tags == old(tags)
      ensures shorthand == old(shorthand) && tagInput == old(tagInput)
      ensures loading == old(loading) && error == old(error) && retryCount == old(retryCount)
    {
      aiLoading, aiError, failedAction := Some(ShorthandAction), None, None;
      sent := shorthand;
    }

    /** The generate attempt number `attempt` ends with `result`: generated
        text replaces the content and resets the retry count; an error is
        shown and the next delay, if any, returned. */
    method CompleteGenerate(attempt: nat, result: Result<string, string>) returns (retryAfter: Option<nat>)
      requires Valid()
      modifies this
      ensures Valid()
      ensures aiLoading == None
      ensures result.Ok? ==>
        content == result.value && retryCount == 0 && retryAfter == None
        && aiError == old(aiError) && failedAction == old(failedAction)
      ensures result.Err? ==>
        content == old(content) && retryCount == old(retryCount) && retryAfter == RetryDelay(attempt)
        && aiError == Some("AI error: " + result.error) && failedAction == Some(ShorthandAction)
      ensures title == old(title) && tags == old(tags) && shorthand == old(shorthand)
      ensures tagInput == old(tagInput) && loading == old(loading) && error == old(error)
    {
      retryAfter := None;
      match result {
        case Ok(value) =>
          content := value;
          retryCount := 0;
        case Err(message) =>
          aiError := Some("AI error: " + message);
          failedAction := Some(ShorthandAction);
          retryAfter := RetryDelay(attempt);
      }
      aiLoading := None;
    }

    /** The Retry button is shown while an AI error is shown and fewer than
        two manual retries were made. */
    predicate RetryShown()
      reads this
    {
      aiError.Some? && retryCount < MaxRetries
    }

    /** The Retry button as written. Its onClick counts the retry and
        re-runs the action named by `aiLoading`; whenever the button is
        shown no action is in flight, so it re-runs nothing. The button has
        no `type` and sits inside the form, so it is a submit button. After
        the onClick, React re-renders with the new count before the click's
        default action. On the first manual retry the button is still
        there, so the form is submitted: `handleSubmit` saves whatever the
        fields hold, whether or not they are valid. On the second, the
        count reaches `MaxRetries`, the button is gone from the form, and
        nothing is submitted. */
    method ClickRetryAsWritten(editing: Option<Note>, store: NotesStore,
                               insert: Draft -> Result<Note, string>,
                               update: (string, Draft) -> Result<Note, string>)
      returns (rerun: Option<AiAction>, thrown: Option<string>)
      requires Valid() && RetryShown()
      modifies this, store
      ensures Valid()
      ensures retryCount == old(retryCount) + 1
      ensures rerun == old(aiLoading)
      ensures rerun == None
      ensures store.loading == old(store.loading) && store.error == old(store.error)
      ensures retryCount < MaxRetries ==>
        && SaveOutcome(editing, Draft(old(title), old(content), Some(old(tags))),
                       old(store.notes), store.notes, thrown, insert, update)
        && (thrown.None? ==> title == "" && content == "" && tags == [] && error == None)
        && (thrown.Some? ==>
              title == old(title) && content == old(content) && tags == old(tags) && error == thrown)
        && !loading
      ensures retryCount == MaxRetries ==>
        && thrown == None && store.notes == old(store.notes)
        && title == old(title) && content == old(content) && tags == old(tags)
        && loading == old(loading) && error == old(error)
      ensures shorthand == old(shorthand) && tagInput == old(tagInput)
      ensures aiLoading == old(aiLoading) && aiError == old(aiError) && failedAction == old(failedAction)
    {
      retryCount := retryCount + 1;
      rerun := aiLoading;
      thrown := None;
      if retryCount < MaxRetries {
        thrown := Submit(editing, store, insert, update);
      }
    }

    /** The Retry button as intended: a `type="button"` button that counts
        the retry and re-runs the action whose failure is shown. It does not
        submit the form, so the notes, the fields and the saving state are
        left alone. */
    method ClickRetry() returns (rerun: Option<AiAction>)
      requires Valid() && RetryShown()
      modifies this
      ensures Valid()
      ensures retryCount == old(retryCount) + 1
      ensures rerun.Some? && rerun == old(failedAction)
      ensures title == old(title) && content == old(content) && tags == old(tags)
      ensures shorthand == old(shorthand) && tagInput == old(tagInput)
      ensures aiLoading == old(aiLoading) && aiError == old(aiError) && failedAction == old(failedAction)
      ensures loading == old(loading) && error == old(error)
    {
      retryCount := retryCount + 1;
      rerun := failedAction;
    }
  }

  /** The auto-title button's `disabled`. */
  predicate AutoTitleDisabled(aiLoading: Option<AiAction>, content: string) {
    aiLoading == Some(TitleAction) || Blank(content)
  }

  /** The generate button's `disabled`. */
  predicate GenerateDisabled(aiLoading: Option<AiAction>, shorthand: string) {
    aiLoading == Some(ShorthandAction) || Blank(shorthand)
  }

  /** Neither AI button can be pressed twice for overlapping attempts, and
      neither can be pressed on whitespace-only input. */
  lemma AiButtonsSpec(aiLoading: Option<AiAction>, content: string, shorthand: string)
    ensures !AutoTitleDisabled(aiLoading, content) <==> aiLoading != Some(TitleAction) && !AllSpace(content)
    ensures !GenerateDisabled(aiLoading, shorthand) <==> aiLoading != Some(ShorthandAction) && !AllSpace(shorthand)
  {
    BlankIffAllSpace(content);
    BlankIffAllSpace(shorthand);
  }

  /** Enter in the title input clicks the form's first submit button. As
      written that is the Retry button whenever it is shown, which submits
      only on the first manual retry (see `ClickRetryAsWritten`); otherwise
      it is the submit button, which does nothing while disabled. */
  predicate EnterSubmitsAsWritten(f: Form)
    reads f
  {
    if f.RetryShown() then f.retryCount + 1 < MaxRetries
    else !SubmitDisabled(f.loading, f.title, f.content, f.tags)
  }

  /** With Retry a `type="button"` button, Enter reaches the submit button
      alone. */
  predicate EnterSubmits(f: Form)
    reads f
  {
    !SubmitDisabled(f.loading, f.title, f.content, f.tags)
  }

  /** As intended, Enter submits only a valid form that is not saving. As
      written the two differ only while Retry is shown: on the first
      manual retry Enter also submits an invalid or saving form, and on
      the second it submits nothing, not even a valid one. */
  lemma EnterGate(f: Form)
    ensures EnterSubmits(f) ==> IsFormValid(f.title, f.content, f.tags) && !f.loading
    ensures !f.RetryShown() ==> (EnterSubmitsAsWritten(f) <==> EnterSubmits(f))
    ensures (EnterSubmitsAsWritten(f) && !EnterSubmits(f)) <==>
      f.RetryShown() && f.retryCount + 1 < MaxRetries && (f.loading || !IsFormValid(f.title, f.content, f.tags))
    ensures (EnterSubmits(f) && !EnterSubmitsAsWritten(f)) <==>
      f.RetryShown() && f.retryCount + 1 == MaxRetries && IsFormValid(f.title, f.content, f.tags) && !f.loading
  {
  }

  /** After a failed auto-title, the Retry button as written re-runs
      nothing, while the corrected one re-runs the auto-title. */
  method RetryAfterFailedAutoTitle(message: string, store: NotesStore,
                                   insert: Draft -> Result<Note, string>,
                                   update: (string, Draft) -> Result<Note, string>)
    returns (asWritten: Option<AiAction>, intended: Option<AiAction>)
    modifies store
    ensures asWritten == None
    ensures intended == Some(TitleAction)
  {
    var form := new Form();
    var _ := form.BeginAutoTitle();
    var _ := form.CompleteAutoTitle(0, Err(message));
    var rerun, _ := form.ClickRetryAsWritten(None, store, insert, update);
    asWritten := rerun;
    intended := form.ClickRetry();
  }

  /** On a new, empty form whose auto-title failed, the submit button is
      disabled, yet a click on Retry as written sends an empty title, an
      empty content and no tags to the store, and a new note is saved when
      the store accepts them. */
  method RetrySavesInvalidNote(message: string, store: NotesStore,
                               insert: Draft -> Result<Note, string>,
                               update: (string, Draft) -> Result<Note, string>)
    returns (submitDisabled: bool, thrown: Option<string>)
    modifies store
    ensures submitDisabled
    ensures var sent := WithTagArray(Draft("", "", Some([])));
      && (insert(sent).Ok? ==> thrown == None && store.notes == [insert(sent).value] + old(store.notes))
      && (insert(sent).Err? ==> thrown == Some(insert(sent).error) && store.notes == old(store.notes))
  {
    var form := new Form();
    var _ := form.BeginAutoTitle();
    var _ := form.CompleteAutoTitle(0, Err(message));
    submitDisabled := SubmitDisabled(form.loading, form.title, form.content, form.tags);
    var _, t := form.ClickRetryAsWritten(None, store, insert, update);
    thrown := t;
  }
}
