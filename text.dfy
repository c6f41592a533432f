/** The string operations the source leans on, over ASCII: `String.prototype.trim`,
    the regular-expression class `\s`, `toLowerCase`, and JavaScript's
    truthiness test on strings. */
module Text {

  /** ASCII whitespace: space, tab, line feed, vertical tab, form feed,
      carriage return. */
  predicate IsSpace(c: char) {
    c == ' ' || c == '\t' || c == '\n' || c == '\r' || c == 11 as char || c == 12 as char
  }

  /** No whitespace at either end. */
  predicate NoOuterSpace(s: string) {
    s == [] || (!IsSpace(s[0]) && !IsSpace(s[|s| - 1]))
  }

  /** Every character is whitespace (vacuously true of ""). */
  predicate AllSpace(s: string) {
    forall i :: 0 <= i < |s| ==> IsSpace(s[i])
  }

  /** `s` with its leading whitespace removed. */
  function TrimStart(s: string): (r: string)
    ensures |r| <= |s|
    ensures r == [] || !IsSpace(r[0])
  {
    if s != [] && IsSpace(s[0]) then TrimStart(s[1..]) else s
  }

  /** What `TrimStart` removes is a whitespace prefix: the result is the
      rest of the string. */
  lemma {:induction false} TrimStartSplit(s: string)
    ensures var r := TrimStart(s);
      r == s[|s| - |r|..] && AllSpace(s[..|s| - |r|])
  {
    if s != [] && IsSpace(s[0]) {
      TrimStartSplit(s[1..]);
      var r := TrimStart(s);
      assert s[1..][..|s| - 1 - |r|] == s[1..|s| - |r|];
    }
  }

  /** `s` with its trailing whitespace removed. */
  function TrimEnd(s: string): (r: string)
    ensures |r| <= |s|
    ensures r == [] || !IsSpace(r[|r| - 1])
  {
    if s != [] && IsSpace(s[|s| - 1]) then TrimEnd(s[..|s| - 1]) else s
  }

  /** What `TrimEnd` removes is a whitespace suffix: the result is the
      beginning of the string. */
  lemma {:induction false} TrimEndSplit(s: string)
    ensures var r := TrimEnd(s);
      r == s[..|r|] && AllSpace(s[|r|..])
  {
    if s != [] && IsSpace(s[|s| - 1]) {
      var init := s[..|s| - 1];
      TrimEndSplit(init);
      var r := TrimEnd(s);
      assert init[..|r|] == s[..|r|];
      assert forall i :: 0 <= i < |init| - |r| ==> s[|r|..][i] == init[|r|..][i];
    }
  }

  /** `s.trim()`. */
  function Trim(s: string): (r: string)
    ensures NoOuterSpace(r)
    ensures |r| <= |s|
  {
    TrimEndSplit(TrimStart(s));
    TrimEnd(TrimStart(s))
  }

  /** `!s.trim()`: the string is empty once trimmed. */
  predicate Blank(s: string) {
    Trim(s) == ""
  }

  /** A JavaScript string is truthy iff it is not empty. */
  predicate Truthy(s: string) {
    s != ""
  }

  /** `c.toLowerCase()` for ASCII. */
  function LowerChar(c: char): char {
    if 'A' <= c <= 'Z' then (c as int - 'A' as int + 'a' as int) as char else c
  }

  /** No ASCII upper-case letter. */
  predicate IsLower(s: string) {
    forall i :: 0 <= i < |s| ==> !('A' <= s[i] <= 'Z')
  }

  /** `s.toLowerCase()` for ASCII. */
  function ToLower(s: string): (r: string)
    ensures |r| == |s|
    ensures IsLower(r)
    ensures forall i :: 0 <= i < |s| ==> IsSpace(r[i]) == IsSpace(s[i])
    ensures forall i :: 0 <= i < |s| && !('A' <= s[i] <= 'Z') ==> r[i] == s[i]
  {
    seq(|s|, i requires 0 <= i < |s| => LowerChar(s[i]))
  }

  // ---------------------------------------------------------------------------

  /** A string is blank iff it is all whitespace. */
  lemma BlankIffAllSpace(s: string)
    ensures Blank(s) <==> AllSpace(s)
  {
    var t := TrimStart(s);
    TrimStartSplit(s);
    if t != [] {
      TrimEndSplit(t);
      assert !IsSpace(t[0]) && t[0] == s[|s| - |t|];
    } else {
      assert s == s[..|s| - |t|];
    }
  }

  /** Trimming a string that has no outer whitespace leaves it unchanged. */
  lemma TrimFixpoint(s: string)
    requires NoOuterSpace(s)
    ensures Trim(s) == s
  {
  }

  /** Trimming twice is trimming once. */
  lemma TrimIdempotent(s: string)
    ensures Trim(Trim(s)) == Trim(s)
  {
    TrimFixpoint(Trim(s));
  }

  /** Lower-casing a lower-case string leaves it unchanged. */
  lemma LowerFixpoint(s: string)
    requires IsLower(s)
    ensures ToLower(s) == s
  {
  }
}
