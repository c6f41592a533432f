/** The notes provider: the in-memory note list, its loading flag and error
    message, and the four operations that change them. Every backend call is
    a parameter: a fetch response, or a function from the row sent to the
    backend's answer. */
module NotesContext {
  import opened Wrappers
  import opened Seqs
  import opened Text
  import opened NoteModel

  // ---------------------------------------------------------------------------
  // Identifier check used when loading

  /** A hexadecimal digit in either case (`[0-9a-f]` under the `i` flag). */
  predicate IsHexDigit(c: char) {
    '0' <= c <= '9' || 'a' <= c <= 'f' || 'A' <= c <= 'F'
  }

  predicate AllHex(s: string) {
    forall i :: 0 <= i < |s| ==> IsHexDigit(s[i])
  }

  /** The identifier check of the loader:
      `/^[0-9a-f]{8}-[0-9a-f]{4}-[1-5][0-9a-f]{3}-[89ab][0-9a-f]{3}-[0-9a-f]{12}$/i`,
      i.e. the 8-4-4-4-12 layout of section 4.1 of RFC 4122 with a version
      digit from 1 to 5 and a variant digit from {8, 9, a, b}. */
  predicate IsUuid(id: string) {
    && |id| == 36
    && AllHex(id[0..8]) && id[8] == '-'
    && AllHex(id[9..13]) && id[13] == '-'
    && '1' <= id[14] <= '5' && AllHex(id[15..18]) && id[18] == '-'
    && LowerChar(id[19]) in "89ab" && AllHex(id[20..23]) && id[23] == '-'
    && AllHex(id[24..36])
  }

  /** A valid identifier is 36 characters long, has its hyphens exactly at
      positions 8, 13, 18 and 23 and hex digits everywhere else; its version
      digit (position 14) is 1-5 and its variant digit (position 19) is one of
      8, 9, a, b in either case. */
  lemma UuidLayout(id: string)
    requires IsUuid(id)
    ensures forall i :: 0 <= i < 36 ==>
      if i == 8 || i == 13 || i == 18 || i == 23 then id[i] == '-' else IsHexDigit(id[i])
    ensures '1' <= id[14] <= '5' && id[19] in "89abAB"
  {
    forall i | 0 <= i < 36
      ensures if i == 8 || i == 13 || i == 18 || i == 23 then id[i] == '-' else IsHexDigit(id[i])
    {
      if i < 8 { assert id[0..8][i] == id[i]; }
      else if 8 < i < 13 { assert id[9..13][i - 9] == id[i]; }
      else if 14 < i < 18 { assert id[15..18][i - 15] == id[i]; }
      else if 19 < i < 23 { assert id[20..23][i - 20] == id[i]; }
      else if 23 < i { assert id[24..36][i - 24] == id[i]; }
    }
  }

  /** The check ignores case: an identifier is accepted iff its lower-cased
      form is. */
  lemma UuidIgnoresCase(id: string)
    ensures IsUuid(id) <==> IsUuid(ToLower(id))
  {
    var low := ToLower(id);
    if |id| == 36 {
      forall a, b | 0 <= a <= b <= 36
        ensures AllHex(id[a..b]) <==> AllHex(low[a..b])
      {
        forall i | a <= i < b ensures IsHexDigit(id[i]) <==> IsHexDigit(low[i]) {
          assert low[i] == LowerChar(id[i]);
        }
        assert forall i :: 0 <= i < b - a ==> id[a..b][i] == id[a + i] && low[a..b][i] == low[a + i];
      }
      assert low[19] == LowerChar(id[19]);
      assert LowerChar(low[19]) == LowerChar(id[19]);
      assert low[14] == LowerChar(id[14]);
    }
  }

  // ---------------------------------------------------------------------------
  // Fetch

  /** What the select query hands back: an error, or `data` (possibly
      `null`). */
  datatype FetchResponse = QueryFailed(message: string) | Rows(data: Option<seq<Note>>)

  /** The four placeholder notes shown when there is nothing valid to show.
      Their identifiers and timestamps come from the random-identifier
      generator and the clock, so they are given. */
  function DemoNotes(ids: seq<string>, stamps: seq<string>): (r: seq<Note>)
    requires |ids| == 4 && |stamps| == 4
    ensures |r| == 4
    ensures forall i :: 0 <= i < 4 ==> r[i].id == ids[i] && r[i].createdAt == Some(stamps[i])
    ensures forall i :: 0 <= i < 4 ==> NoDup(TagsOf(r[i])) && |TagsOf(r[i])| == 2
  {
    [ Note(ids[0], "Welcome to GenAI Notes!",
           "This is a demo note. You can edit or delete it, or create your own.",
           Some(["demo", "welcome"]), Some(stamps[0])),
      Note(ids[1], "AI Features",
           "Try the AI auto-title and summarization features!",
           Some(["ai", "features"]), Some(stamps[1])),
      Note(ids[2], "Tag Filtering",
           "Filter notes by tags using the sidebar.",
           Some(["tags", "filter"]), Some(stamps[2])),
      Note(ids[3], "Analytics",
           "Check out the Analytics page to see note and tag stats.",
           Some(["analytics", "demo"]), Some(stamps[3])) ]
  }

  /** The rows whose identifier passes the check, in order. */
  function ValidRows(rows: seq<Note>): seq<Note> {
    Filter(rows, (n: Note) => IsUuid(n.id))
  }

  /** The list shown after a successful fetch: the valid rows, or the demo
      notes when `data` is missing, empty, or has no valid row. */
  function LoadedNotes(data: Option<seq<Note>>, demo: seq<Note>): seq<Note> {
    if data.None? || data.value == [] then demo
    else if ValidRows(data.value) == [] then demo
    else ValidRows(data.value)
  }

  /** Loading keeps, in their order and multiplicity, exactly the rows whose
      identifier is valid, and falls back to the demo notes iff there is no
      such row. */
  lemma LoadedNotesSpec(data: Option<seq<Note>>, demo: seq<Note>, n: Note)
    ensures var rows := data.GetOr([]);
      (forall i :: 0 <= i < |rows| ==> !IsUuid(rows[i].id)) ==> LoadedNotes(data, demo) == demo
    ensures var rows := data.GetOr([]);
      (exists i :: 0 <= i < |rows| && IsUuid(rows[i].id)) ==>
        var r := LoadedNotes(data, demo);
        && IsSubseq(r, rows)
        && (n in r <==> n in rows && IsUuid(n.id))
        && Count(r, n) == if IsUuid(n.id) then Count(rows, n) else 0
  {
    var rows := data.GetOr([]);
    var p := (m: Note) => IsUuid(m.id);
    ValidRowsEmpty(rows);
    FilterIsSubseq(rows, p);
    FilterMembership(rows, p, n);
    FilterCount(rows, p, n);
  }

  /** No row survives the check iff no row has a valid identifier. */
  lemma ValidRowsEmpty(rows: seq<Note>)
    ensures ValidRows(rows) == [] <==> forall i :: 0 <= i < |rows| ==> !IsUuid(rows[i].id)
  {
    var p := (m: Note) => IsUuid(m.id);
    var v := ValidRows(rows);
    if v != [] {
      FilterMembership(rows, p, v[0]);
    }
    if exists i :: 0 <= i < |rows| && IsUuid(rows[i].id) {
      var i :| 0 <= i < |rows| && IsUuid(rows[i].id);
      FilterMembership(rows, p, rows[i]);
    }
  }

  // ---------------------------------------------------------------------------
  // Create, update, delete as list updates

  /** The note fields a form sends. `tags` is `None` when the caller passed
      anything that is not an array. */
  datatype Draft = Draft(title: string, content: string, tags: Option<seq<string>>)

  /** `{ ...note, tags: Array.isArray(note.tags) ? note.tags : [] }`. */
  function WithTagArray(d: Draft): (r: Draft)
    ensures r.title == d.title && r.content == d.content
    ensures r.tags.Some?
    ensures d.tags.Some? ==> r.tags == d.tags
    ensures d.tags.None? ==> r.tags == Some([])
  {
    d.(tags := Some(d.tags.GetOr([])))
  }

  /** `notes.map(n => n.id === id ? row : n)`. */
  function ReplaceById(notes: seq<Note>, id: string, row: Note): (r: seq<Note>)
    ensures |r| == |notes|
    ensures forall i :: 0 <= i < |notes| ==> r[i] == if notes[i].id == id then row else notes[i]
  {
    if notes == [] then []
    else
      var last := notes[|notes| - 1];
      ReplaceById(notes[..|notes| - 1], id, row) + [if last.id == id then row else last]
  }

  /** Updating keeps every position: when the returned row keeps its
      identifier, the identifiers are unchanged. Any other note stays listed
      iff it was listed under another identifier, and the row is listed iff
      it already was or some note carried the identifier. */
  lemma ReplaceByIdSpec(notes: seq<Note>, id: string, row: Note, n: Note)
    ensures row.id == id ==>
      forall i :: 0 <= i < |notes| ==> ReplaceById(notes, id, row)[i].id == notes[i].id
    ensures n != row ==> (n in ReplaceById(notes, id, row) <==> n in notes && n.id != id)
    ensures row in ReplaceById(notes, id, row) <==>
      row in notes || exists i :: 0 <= i < |notes| && notes[i].id == id
  {
    var r := ReplaceById(notes, id, row);
    if n != row && n in notes && n.id != id {
      var i :| 0 <= i < |notes| && notes[i] == n;
      assert r[i] == n;
    }
    if row in notes {
      var i :| 0 <= i < |notes| && notes[i] == row;
      assert r[i] == row;
    }
    if exists i :: 0 <= i < |notes| && notes[i].id == id {
      var i :| 0 <= i < |notes| && notes[i].id == id;
      assert r[i] == row;
    }
  }

  /** `notes.filter(n => n.id !== id)`. */
  function RemoveById(notes: seq<Note>, id: string): seq<Note> {
    Filter(notes, (n: Note) => n.id != id)
  }

  /** Deleting removes every note with the identifier, keeps every other note
      with its multiplicity, and keeps their relative order. */
  lemma RemoveByIdSpec(notes: seq<Note>, id: string, n: Note)
    ensures IsSubseq(RemoveById(notes, id), notes)
    ensures n in RemoveById(notes, id) <==> n in notes && n.id != id
    ensures Count(RemoveById(notes, id), n) == if n.id == id then 0 else Count(notes, n)
  {
    var p := (m: Note) => m.id != id;
    FilterIsSubseq(notes, p);
    FilterMembership(notes, p, n);
    FilterCount(notes, p, n);
  }

  /** Deleting the note just created, when no other note shares its
      identifier, gives back the list as it was before. */
  lemma DeleteUndoesCreate(notes: seq<Note>, row: Note)
    requires forall i :: 0 <= i < |notes| ==> notes[i].id != row.id
    ensures RemoveById([row] + notes, row.id) == notes
    decreases |notes|
  {
    var p := (m: Note) => m.id != row.id;
    if notes == [] {
      assert [row] + notes == [] + [row];
      FilterSnoc([], row, p);
    } else {
      var init, last := notes[..|notes| - 1], notes[|notes| - 1];
      DeleteUndoesCreate(init, row);
      assert [row] + notes == ([row] + init) + [last];
      FilterSnoc([row] + init, last, p);
      assert notes == init + [last];
    }
  }

  // ---------------------------------------------------------------------------

  /** The provider's state: the note list, the loading flag and the load
      error. */
  class NotesStore {
    var notes: seq<Note>
    var loading: bool
    var error: Option<string>

    /** The initial state, before the first fetch completes. */
    constructor ()
      ensures notes == [] && loading && error == None
    {
      notes := [];
      loading := true;
      error := None;
    }

    /** `fetchNotes`: on a query error the list is kept and the message
        recorded; otherwise the list becomes the loaded notes. Loading ends
        in every branch. */
    method FetchNotes(response: FetchResponse, demoIds: seq<string>, demoStamps: seq<string>)
      requires |demoIds| == 4 && |demoStamps| == 4
      modifies this
      ensures !loading
      ensures response.QueryFailed? ==> notes == old(notes) && error == Some(response.message)
      ensures response.Rows? ==>
        error == None && notes == LoadedNotes(response.data, DemoNotes(demoIds, demoStamps))
    {
      loading := true;
      error := None;
      match response {
        case QueryFailed(message) =>
          error := Some(message);
        case Rows(data) =>
          if data.None? || |data.value| == 0 {
            notes := DemoNotes(demoIds, demoStamps);
          } else {
            var valid := ValidRows(data.value);
            if |valid| == 0 {
              notes := DemoNotes(demoIds, demoStamps);
            } else {
              notes := valid;
            }
          }
      }
      loading := false;
    }

    /** `createNote`: sends the draft with an array of tags; on an error it
        throws before touching the list, otherwise the returned row goes to
        the front and the previous notes follow unchanged. */
    method CreateNote(note: Draft, insert: Draft -> Result<Note, string>) returns (thrown: Option<string>)
      modifies this
      ensures var res := insert(WithTagArray(note));
        && (res.Err? ==> thrown == Some(res.error) && notes == old(notes))
        && (res.Ok? ==> thrown == None && notes == [res.value] + old(notes))
      ensures loading == old(loading) && error == old(error)
    {
      var res := insert(WithTagArray(note));
      if res.Err? {
        return Some(res.error);
      }
      notes := [res.value] + notes;
      thrown := None;
    }

    /** `updateNote`: sends the changes with an array of tags; on an error
        it throws before touching the list, otherwise every note with the
        identifier is replaced by the returned row and nothing else moves. */
    method UpdateNote(id: string, updated: Draft, update: (string, Draft) -> Result<Note, string>)
      returns (thrown: Option<string>)
      modifies this
      ensures var res := update(id, WithTagArray(updated));
        && (res.Err? ==> thrown == Some(res.error) && notes == old(notes))
        && (res.Ok? ==> thrown == None && notes == ReplaceById(old(notes), id, res.value))
      ensures loading == old(loading) && error == old(error)
    {
      var res := update(id, WithTagArray(updated));
      if res.Err? {
        return Some(res.error);
      }
      notes := ReplaceById(notes, id, res.value);
      thrown := None;
    }

    /** `deleteNote`: on an error it throws before touching the list,
        otherwise the notes with the identifier are filtered out. */
    method DeleteNote(id: string, remove: string -> Option<string>) returns (thrown: Option<string>)
      modifies this
      ensures thrown == remove(id)
      ensures thrown.Some? ==> notes == old(notes)
      ensures thrown.None? ==> notes == RemoveById(old(notes), id)
      ensures loading == old(loading) && error == old(error)
    {
      thrown := remove(id);
      if thrown.None? {
        notes := RemoveById(notes, id);
      }
    }
  }
}
