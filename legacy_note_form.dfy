/** The older note editor. It shares the tag input rules with the newer one
    (`NoteForm.AddTag`, `NoteForm.RemoveTag`) and differs in three ways: the
    only validity gate on submission is the browser's, which refuses an
    empty title or content (the inputs are `required`) but lets a
    whitespace-only one and an empty tag list through; the AI buttons test
    for the empty string rather than for blank text; and a failed AI action
    is never retried. */
module LegacyNoteForm {
  import opened Wrappers
  import opened Text
  import opened NoteModel
  import opened NotesContext
  import NoteForm

  /** The submit button's `disabled`: only while saving. */
  predicate SubmitDisabled(loading: bool) {
    loading
  }

  /** The browser's constraint validation of the two `required` fields:
      a value is missing only when it is the empty string. */
  predicate SubmitBlocked(title: string, content: string) {
    title == "" || content == ""
  }

  /** The auto-title button's `disabled`: the content is tested for being
      empty, not for being blank. */
  predicate AutoTitleDisabled(aiLoading: Option<NoteForm.AiAction>, content: string) {
    aiLoading == Some(NoteForm.TitleAction) || content == ""
  }

  /** The generate button's `disabled`. */
  predicate GenerateDisabled(aiLoading: Option<NoteForm.AiAction>, shorthand: string) {
    aiLoading == Some(NoteForm.ShorthandAction) || shorthand == ""
  }

  /** Whatever the older form disables, the newer one disables too, and the
      AI buttons differ exactly on non-empty whitespace-only input. Whatever
      the newer form lets through, the older one submits too; the older one
      submits more exactly when neither field is empty but one is
      whitespace-only or there are no tags. */
  lemma NewerFormIsStricter(loading: bool, title: string, content: string, tags: seq<string>,
                            aiLoading: Option<NoteForm.AiAction>, shorthand: string)
    ensures SubmitDisabled(loading) ==> NoteForm.SubmitDisabled(loading, title, content, tags)
    ensures AutoTitleDisabled(aiLoading, content) ==> NoteForm.AutoTitleDisabled(aiLoading, content)
    ensures GenerateDisabled(aiLoading, shorthand) ==> NoteForm.GenerateDisabled(aiLoading, shorthand)
    ensures !NoteForm.SubmitDisabled(loading, title, content, tags) ==>
      !SubmitDisabled(loading) && !SubmitBlocked(title, content)
    ensures (!SubmitDisabled(loading) && !SubmitBlocked(title, content)
             && NoteForm.SubmitDisabled(loading, title, content, tags))
      <==> !loading && title != "" && content != "" && (AllSpace(title) || AllSpace(content) || tags == [])
    ensures (!AutoTitleDisabled(aiLoading, content) && NoteForm.AutoTitleDisabled(aiLoading, content))
      <==> aiLoading != Some(NoteForm.TitleAction) && content != "" && AllSpace(content)
    ensures (!GenerateDisabled(aiLoading, shorthand) && NoteForm.GenerateDisabled(aiLoading, shorthand))
      <==> aiLoading != Some(NoteForm.ShorthandAction) && shorthand != "" && AllSpace(shorthand)
  {
    BlankIffAllSpace(title);
    BlankIffAllSpace(content);
    BlankIffAllSpace(shorthand);
  }

  /** The older form's state. */
  class Form {
    var title: string
    var content: string
    var tags: seq<string>
    var tagInput: string
    var loading: bool
    var error: Option<string>
    var aiLoading: Option<NoteForm.AiAction>
    var aiError: Option<string>
    var shorthand: string

    constructor ()
      ensures title == "" && content == "" && tags == [] && tagInput == "" && shorthand == ""
      ensures !loading && error == None && aiLoading == None && aiError == None
    {
      title, content, tags, tagInput, shorthand := "", "", [], "", "";
      loading, error, aiLoading, aiError := false, None, None, None;
    }

    /** The Add button or Enter, by the shared rule. */
    method AddTagClick()
      modifies this
      ensures tags == NoteForm.AddTag(old(tags), old(tagInput)) && tagInput == ""
      ensures title == old(title) && content == old(content) && shorthand == old(shorthand)
      ensures loading == old(loading) && error == old(error)
      ensures aiLoading == old(aiLoading) && aiError == old(aiError)
    {
      tags := NoteForm.AddTag(tags, tagInput);
      tagInput := "";
    }

    /** A tag's remove button, by the shared rule. */
    method RemoveTagClick(tag: string)
      modifies this
      ensures tags == NoteForm.RemoveTag(old(tags), tag)
      ensures title == old(title) && content == old(content) && shorthand == old(shorthand)
      ensures tagInput == old(tagInput) && loading == old(loading) && error == old(error)
      ensures aiLoading == old(aiLoading) && aiError == old(aiError)
    {
      tags := NoteForm.RemoveTag(tags, tag);
    }

    /** The `editingNote` effect: load or clear the fields, and reset the
        shorthand and the AI state. */
    method LoadEditing(editing: Option<Note>)
      modifies this
      ensures editing.Some? ==>
        title == editing.value.title && content == editing.value.content && tags == TagsOf(editing.value)
      ensures editing.None? ==> title == "" && content == "" && tags == []
      ensures shorthand == "" && aiError == None && aiLoading == None
      ensures tagInput == old(tagInput) && loading == old(loading) && error == old(error)
    {
      if editing.Some? {
        title, content, tags := editing.value.title, editing.value.content, TagsOf(editing.value);
      } else {
        title, content, tags := "", "", [];
      }
      shorthand := "";
      aiError, aiLoading := None, None;
    }

    /** `handleSubmit`, the same as in the newer form: cleared on success,
        kept with the message on failure, not saving afterwards. The browser
        calls it only through `ClickSubmit`. */
    method Submit(editing: Option<Note>, store: NotesStore,
                  insert: Draft -> Result<Note, string>,
                  update: (string, Draft) -> Result<Note, string>)
      returns (thrown: Option<string>)
      modifies this, store
      ensures NoteForm.SaveOutcome(editing, Draft(old(title), old(content), Some(old(tags))),
                                   old(store.notes), store.notes, thrown, insert, update)
      ensures thrown.None? ==> title == "" && content == "" && tags == [] && error == None
      ensures thrown.Some? ==>
        title == old(title) && content == old(content) && tags == old(tags) && error == thrown
      ensures !loading
      ensures tagInput == old(tagInput) && shorthand == old(shorthand)
      ensures aiLoading == old(aiLoading) && aiError == old(aiError)
    {
      loading := true;
      error := None;
      var draft := Draft(title, content, Some(tags));
      if editing.Some? {
        thrown := store.UpdateNote(editing.value.id, draft, update);
      } else {
        thrown := store.CreateNote(draft, insert);
      }
      if thrown.None? {
        title, content, tags := "", "", [];
      } else {
        error := thrown;
      }
      loading := false;
    }

    /** The submit button, or Enter in the title input: nothing happens
        while saving (the button is disabled) or while a `required` field is
        empty (the browser refuses the submission); otherwise
        `handleSubmit` runs. */
    method ClickSubmit(editing: Option<Note>, store: NotesStore,
                       insert: Draft -> Result<Note, string>,
                       update: (string, Draft) -> Result<Note, string>)
      returns (submitted: bool, thrown: Option<string>)
      modifies this, store
      ensures submitted <==> !SubmitDisabled(old(loading)) && !SubmitBlocked(old(title), old(content))
      ensures !submitted ==> thrown == None && unchanged(this) && store.notes == old(store.notes)
      ensures submitted ==> NoteForm.SaveOutcome(editing, Draft(old(title), old(content), Some(old(tags))),
                                                 old(store.notes), store.notes, thrown, insert, update)
      ensures submitted && thrown.None? ==> title == "" && content == "" && tags == [] && error == None
      ensures submitted && thrown.Some? ==>
        title == old(title) && content == old(content) && tags == old(tags) && error == thrown
      ensures submitted ==> !loading
      ensures tagInput == old(tagInput) && shorthand == old(shorthand)
      ensures aiLoading == old(aiLoading) && aiError == old(aiError)
    {
      submitted := !SubmitDisabled(loading) && !SubmitBlocked(title, content);
      thrown := None;
      if submitted {
        thrown := Submit(editing, store, insert, update);
      }
    }

    /** Start an AI action: it is marked in flight, any earlier AI error is
        cleared, and the text it sends (content for a title, shorthand for
        generation) is returned. */
    method BeginAi(action: NoteForm.AiAction) returns (sent: string)
      modifies this
      ensures aiLoading == Some(action) && aiError == None
      ensures sent == if action == NoteForm.TitleAction then content else shorthand
      ensures title == old(title) && content == old(content) && tags == old(tags)
      ensures shorthand == old(shorthand) && tagInput == old(tagInput)
      ensures loading == old(loading) && error == old(error)
    {
      aiLoading, aiError := Some(action), None;
      sent := if action == NoteForm.TitleAction then content else shorthand;
    }

    /** An AI action ends: a title replaces the title, generated text the
        content; an error is shown with the prefix "AI error: " and nothing
        is scheduled. No AI action is in flight afterwards. */
    method CompleteAi(action: NoteForm.AiAction, result: Result<string, string>)
      modifies this
      ensures aiLoading == None
      ensures result.Ok? && action == NoteForm.TitleAction ==> title == result.value && content == old(content)
      ensures result.Ok? && action == NoteForm.ShorthandAction ==> content == result.value && title == old(title)
      ensures result.Ok? ==> aiError == old(aiError)
      ensures result.Err? ==>
        title == old(title) && content == old(content) && aiError == Some("AI error: " + result.error)
      ensures tags == old(tags) && shorthand == old(shorthand) && tagInput == old(tagInput)
      ensures loading == old(loading) && error == old(error)
    {
      match result {
        case Ok(value) =>
          if action == NoteForm.TitleAction {
            title := value;
          } else {
            content := value;
          }
        case Err(message) =>
          aiError := Some("AI error: " + message);
      }
      aiLoading := None;
    }
  }
}
