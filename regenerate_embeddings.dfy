/** The maintenance script that recomputes every note's embedding: the text
    normalisation applied before a text is embedded, and the loop that
    attempts each fetched note once and counts successes and errors. The
    embedding service and the database are parameters. */
module RegenerateEmbeddings {
  import opened Wrappers
  import opened Seqs
  import opened Text

  /** The non-whitespace characters of `s`, in order. */
  function NonSpace(s: string): (r: string)
    ensures |r| <= |s|
    ensures forall i :: 0 <= i < |r| ==> !IsSpace(r[i])
  {
    if s == [] then [] else (if IsSpace(s[0]) then [] else [s[0]]) + NonSpace(s[1..])
  }

  /** No two whitespace characters are adjacent. */
  predicate NoDoubleSpace(s: string) {
    forall i :: 0 <= i < |s| - 1 ==> !(IsSpace(s[i]) && IsSpace(s[i + 1]))
  }

  /** The only whitespace character is the plain space. */
  predicate OnlyPlainSpaces(s: string) {
    forall i :: 0 <= i < |s| && IsSpace(s[i]) ==> s[i] == ' '
  }

  /** `s.replace(/\s+/g, ' ')`: a whitespace character followed by another
      is dropped and the last one of each run becomes a space. */
  function CollapseSpaces(s: string): (r: string)
    ensures |r| <= |s|
  {
    if s == [] then []
    else if !IsSpace(s[0]) then [s[0]] + CollapseSpaces(s[1..])
    else if |s| > 1 && IsSpace(s[1]) then CollapseSpaces(s[1..])
    else [' '] + CollapseSpaces(s[1..])
  }

  /** The collapsed string is empty iff the input is, and starts and ends
      with whitespace iff the input does. */
  lemma {:induction false} CollapseEnds(s: string)
    ensures var r := CollapseSpaces(s);
      && (r == [] <==> s == [])
      && (s != [] ==> (IsSpace(r[0]) <==> IsSpace(s[0])))
      && (s != [] ==> (IsSpace(r[|r| - 1]) <==> IsSpace(s[|s| - 1])))
  {
    if s != [] {
      var t := s[1..];
      CollapseEnds(t);
      assert t != [] ==> t[|t| - 1] == s[|s| - 1];
    }
  }

  /** Collapsing leaves no run longer than one plain space. */
  lemma {:induction false} CollapseRuns(s: string)
    ensures NoDoubleSpace(CollapseSpaces(s)) && OnlyPlainSpaces(CollapseSpaces(s))
  {
    if s != [] {
      var t := s[1..];
      var c := CollapseSpaces(t);
      CollapseRuns(t);
      CollapseEnds(t);
      var r := CollapseSpaces(s);
      if !IsSpace(s[0]) || !(|s| > 1 && IsSpace(s[1])) {
        var h := if IsSpace(s[0]) then ' ' else s[0];
        assert r == [h] + c;
        forall i | 0 <= i < |r| - 1 ensures !(IsSpace(r[i]) && IsSpace(r[i + 1])) {
          if i > 0 { assert r[i] == c[i - 1] && r[i + 1] == c[i]; }
        }
        forall i | 0 <= i < |r| && IsSpace(r[i]) ensures r[i] == ' ' {
          if i > 0 { assert r[i] == c[i - 1]; }
        }
      }
    }
  }

  /** Collapsing keeps the non-whitespace characters, in order. */
  lemma {:induction false} CollapseNonSpace(s: string)
    ensures NonSpace(CollapseSpaces(s)) == NonSpace(s)
  {
    if s != [] {
      var t := s[1..];
      var c := CollapseSpaces(t);
      CollapseNonSpace(t);
      var r := CollapseSpaces(s);
      if !IsSpace(s[0]) || !(|s| > 1 && IsSpace(s[1])) {
        var h := if IsSpace(s[0]) then ' ' else s[0];
        assert r == [h] + c;
        assert r[1..] == c;
      }
    }
  }

  /** A left-to-right scan, the way a matcher for `\s+` proceeds: the first
      whitespace character of a run emits a space and the rest of the run
      emits nothing. `inRun` says whether the previous character was
      whitespace. */
  function Scan(s: string, inRun: bool): string {
    if s == [] then []
    else if IsSpace(s[0]) then (if inRun then [] else [' ']) + Scan(s[1..], true)
    else [s[0]] + Scan(s[1..], false)
  }

  /** The scan, which emits a run's space at its start, and `CollapseSpaces`,
      which emits it at its end, agree on every string; a scan that starts
      inside a run collapses what follows the run's leading whitespace. */
  lemma {:induction false} CollapseMatchesScan(s: string)
    ensures Scan(s, false) == CollapseSpaces(s)
    ensures Scan(s, true) == CollapseSpaces(TrimStart(s))
  {
    if s != [] {
      CollapseMatchesScan(s[1..]);
      if IsSpace(s[0]) && |s| > 1 && IsSpace(s[1]) {
        CollapseMatchesScan(s[2..]);
        assert s[1..][1..] == s[2..];
      }
    }
  }

  /** A string without double or non-plain whitespace is left unchanged. */
  lemma {:induction false} CollapseFixpoint(s: string)
    requires NoDoubleSpace(s) && OnlyPlainSpaces(s)
    ensures CollapseSpaces(s) == s
  {
    if s != [] {
      assert NoDoubleSpace(s[1..]) by {
        forall i | 0 <= i < |s[1..]| - 1 ensures !(IsSpace(s[1..][i]) && IsSpace(s[1..][i + 1])) {
          assert s[1..][i] == s[i + 1] && s[1..][i + 1] == s[i + 2];
        }
      }
      CollapseFixpoint(s[1..]);
      if IsSpace(s[0]) && |s| > 1 {
        assert !(IsSpace(s[0]) && IsSpace(s[1]));
      }
    }
  }

  lemma {:induction false} NonSpaceConcat(a: string, b: string)
    ensures NonSpace(a + b) == NonSpace(a) + NonSpace(b)
  {
    if a != [] {
      var head := if IsSpace(a[0]) then [] else [a[0]];
      assert (a + b)[0] == a[0];
      assert (a + b)[1..] == a[1..] + b;
      NonSpaceConcat(a[1..], b);
      calc {
        NonSpace(a + b);
        head + NonSpace(a[1..] + b);
        head + (NonSpace(a[1..]) + NonSpace(b));
        (head + NonSpace(a[1..])) + NonSpace(b);
      }
    } else {
      assert a + b == b;
    }
  }

  lemma {:induction false} NonSpaceAllSpace(s: string)
    requires AllSpace(s)
    ensures NonSpace(s) == []
  {
    if s != [] {
      NonSpaceAllSpace(s[1..]);
    }
  }

  lemma NonSpaceTrimStart(s: string)
    ensures NonSpace(TrimStart(s)) == NonSpace(s)
  {
    var t := TrimStart(s);
    var k := |s| - |t|;
    TrimStartSplit(s);
    assert s == s[..k] + t;
    NonSpaceConcat(s[..k], t);
    NonSpaceAllSpace(s[..k]);
  }

  lemma NonSpaceTrimEnd(s: string)
    ensures NonSpace(TrimEnd(s)) == NonSpace(s)
  {
    var t := TrimEnd(s);
    TrimEndSplit(s);
    assert s == t + s[|t|..];
    NonSpaceConcat(t, s[|t|..]);
    NonSpaceAllSpace(s[|t|..]);
  }

  /** Trimming only removes whitespace. */
  lemma NonSpaceTrim(s: string)
    ensures NonSpace(Trim(s)) == NonSpace(s)
  {
    NonSpaceTrimStart(s);
    NonSpaceTrimEnd(TrimStart(s));
  }

  /** Lower-casing commutes with dropping whitespace. */
  lemma {:induction false} NonSpaceLower(s: string)
    ensures NonSpace(ToLower(s)) == ToLower(NonSpace(s))
  {
    if s != [] {
      assert ToLower(s) == [LowerChar(s[0])] + ToLower(s[1..]);
      NonSpaceLower(s[1..]);
      var head := if IsSpace(s[0]) then [] else [s[0]];
      assert ToLower(head + NonSpace(s[1..])) == ToLower(head) + ToLower(NonSpace(s[1..]));
    }
  }

  /** `preprocessText`: trim, collapse whitespace runs, lower-case. The
      result has no whitespace at either end, no two whitespace characters
      in a row and no whitespace but the plain space, is lower-case, and
      its other characters are those of the input, lower-cased, in
      order. */
  function Preprocess(text: string): (r: string)
    ensures NoOuterSpace(r) && NoDoubleSpace(r) && OnlyPlainSpaces(r)
    ensures IsLower(r)
    ensures NonSpace(r) == ToLower(NonSpace(text))
  {
    var trimmed := Trim(text);
    var collapsed := CollapseSpaces(trimmed);
    CollapseTrimmed(trimmed);
    NonSpaceTrim(text);
    NonSpaceLower(collapsed);
    LowerKeepsSpacing(collapsed);
    ToLower(collapsed)
  }

  /** Collapsing a trimmed string gives a trimmed string without runs. */
  lemma CollapseTrimmed(t: string)
    requires NoOuterSpace(t)
    ensures var c := CollapseSpaces(t);
      && NoOuterSpace(c) && NoDoubleSpace(c) && OnlyPlainSpaces(c)
      && NonSpace(c) == NonSpace(t)
  {
    CollapseEnds(t);
    CollapseRuns(t);
    CollapseNonSpace(t);
  }

  /** Lower-casing moves no whitespace and turns none into another
      character. */
  lemma LowerKeepsSpacing(s: string)
    requires NoOuterSpace(s) && NoDoubleSpace(s) && OnlyPlainSpaces(s)
    ensures var r := ToLower(s);
      NoOuterSpace(r) && NoDoubleSpace(r) && OnlyPlainSpaces(r)
  {
    var r := ToLower(s);
    forall i | 0 <= i < |r| && IsSpace(r[i]) ensures r[i] == ' ' {
      assert IsSpace(s[i]) && s[i] == ' ';
    }
  }

  /** Normalising a normalised text changes nothing. */
  lemma PreprocessIdempotent(text: string)
    ensures Preprocess(Preprocess(text)) == Preprocess(text)
  {
    var t := Preprocess(text);
    TrimFixpoint(t);
    CollapseFixpoint(t);
    LowerFixpoint(t);
  }

  /** A fetched row: `id, title, content`. */
  datatype NoteRow = NoteRow(id: string, title: string, content: string)

  type Embedding = seq<real>

  /** The text embedded for a note: title, a blank line, content. */
  function EmbeddingText(n: NoteRow): string {
    n.title + "\n\n" + n.content
  }

  /** `generateEmbedding`: the service is asked for the embedding of the
      normalised text; `None` stands for any failure. */
  function GenerateEmbedding(embed: string -> Option<Embedding>): string -> Option<Embedding> {
    text => embed(Preprocess(text))
  }

  /** A note's attempt succeeds when `generate` returns an embedding for
      its text and the update of its row reports no error. */
  predicate Succeeds(n: NoteRow, generate: string -> Option<Embedding>, update: (string, Embedding) -> Option<string>) {
    var e := generate(EmbeddingText(n));
    e.Some? && update(n.id, e.value).None?
  }

  /** The notes whose attempt succeeds, in fetched order. */
  function Successful(notes: seq<NoteRow>, generate: string -> Option<Embedding>,
                      update: (string, Embedding) -> Option<string>): seq<NoteRow>
  {
    Filter(notes, SucceedsWith(generate, update))
  }

  function SucceedsWith(generate: string -> Option<Embedding>, update: (string, Embedding) -> Option<string>): NoteRow -> bool {
    n => Succeeds(n, generate, update)
  }

  lemma SuccessfulSnoc(notes: seq<NoteRow>, n: NoteRow, generate: string -> Option<Embedding>,
                       update: (string, Embedding) -> Option<string>)
    ensures |Successful(notes + [n], generate, update)|
      == |Successful(notes, generate, update)| + (if Succeeds(n, generate, update) then 1 else 0)
  {
    FilterSnoc(notes, n, SucceedsWith(generate, update));
  }

  /** The summary printed at the end. */
  datatype Report = Report(success: nat, errors: nat, total: nat)

  /** `regenerateEmbeddings`: a fetch error is fatal. Otherwise each note is
      attempted once, in fetched order, its text handed to `generate` (the
      script passes `GenerateEmbedding`); the successes are exactly the
      notes whose attempt succeeds, every other note counts as an error,
      and the two counts add up to the number of notes. */
  method Regenerate(fetched: Result<seq<NoteRow>, string>,
                    generate: string -> Option<Embedding>,
                    update: (string, Embedding) -> Option<string>)
    returns (report: Result<Report, string>, requests: seq<string>)
    ensures fetched.Err? ==> report == Err(fetched.error) && requests == []
    ensures fetched.Ok? ==> report.Ok?
    ensures fetched.Ok? ==>
      var notes := fetched.value;
      && report.value.total == |notes|
      && report.value.success + report.value.errors == |notes|
      && report.value.success == |Successful(notes, generate, update)|
      && |requests| == |notes|
      && forall k :: 0 <= k < |notes| ==> requests[k] == EmbeddingText(notes[k])
  {
    requests := [];
    if fetched.Err? {
      report := Err(fetched.error);
      return;
    }
    var notes := fetched.value;
    var success, errors := 0, 0;
    var i := 0;
    while i < |notes|
      invariant 0 <= i <= |notes|
      invariant success + errors == i
      invariant success == |Successful(notes[..i], generate, update)|
      invariant |requests| == i
      invariant forall k :: 0 <= k < i ==> requests[k] == EmbeddingText(notes[k])
    {
      var text := EmbeddingText(notes[i]);
      requests := requests + [text];
      var embedding := generate(text);
      if embedding.Some? && update(notes[i].id, embedding.value).None? {
        success := success + 1;
      } else {
        errors := errors + 1;
      }
      assert notes[..i + 1] == notes[..i] + [notes[i]];
      SuccessfulSnoc(notes[..i], notes[i], generate, update);
      i := i + 1;
    }
    assert notes[..i] == notes;
    report := Ok(Report(success, errors, |notes|));
  }

  /** The script with `generateEmbedding` as the generator: the success
      count is that of the notes whose normalised text the service embedded
      and whose update went through. `sent` lists the normalised texts of
      the texts `Regenerate` handed to the generator, one per note in
      fetched order; it is derived from those texts rather than recorded
      inside `embed`. */
  method RegenerateWithService(fetched: Result<seq<NoteRow>, string>,
                               embed: string -> Option<Embedding>,
                               update: (string, Embedding) -> Option<string>)
    returns (report: Result<Report, string>, sent: seq<string>)
    ensures fetched.Err? ==> report == Err(fetched.error) && sent == []
    ensures fetched.Ok? ==> report.Ok? && |sent| == |fetched.value|
    ensures fetched.Ok? ==>
      report.value.success == |Successful(fetched.value, GenerateEmbedding(embed), update)|
    ensures fetched.Ok? ==> forall k :: 0 <= k < |sent| ==>
      sent[k] == Preprocess(EmbeddingText(fetched.value[k])) && NoOuterSpace(sent[k]) && IsLower(sent[k])
  {
    var requests;
    report, requests := Regenerate(fetched, GenerateEmbedding(embed), update);
    sent := seq(|requests|, k requires 0 <= k < |requests| => Preprocess(requests[k]));
  }
}
