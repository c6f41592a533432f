/** Sequence vocabulary shared by the model: JavaScript's `filter`, occurrence
    counting, order-preserving subsequences, duplicate-freedom, the
    insertion-ordered de-duplication a `Set` performs, and sums.

    Every recursive definition peels off the LAST element, so that a loop
    that walks `s[..i]` left to right extends the definition by one step. */
module Seqs {

  /** The elements of `s` that satisfy `p`, in their original order
      (`s.filter(p)`). */
  function Filter<T>(s: seq<T>, p: T -> bool): (r: seq<T>)
    ensures |r| <= |s|
    ensures forall x :: x in r ==> x in s && p(x)
  {
    if s == [] then []
    else Filter(s[..|s| - 1], p) + (if p(s[|s| - 1]) then [s[|s| - 1]] else [])
  }

  /** Number of occurrences of `x` in `s`. */
  function Count<T(==)>(s: seq<T>, x: T): (n: nat)
    ensures n <= |s|
    ensures n > 0 <==> x in s
  {
    if s == [] then 0
    else Count(s[..|s| - 1], x) + (if s[|s| - 1] == x then 1 else 0)
  }

  /** `a` can be obtained from `b` by deleting elements: `a` keeps the
      relative order `b` has. */
  predicate IsSubseq<T(==)>(a: seq<T>, b: seq<T>)
    decreases |b|
  {
    if b == [] then a == []
    else IsSubseq(a, b[..|b| - 1])
         || (a != [] && a[|a| - 1] == b[|b| - 1] && IsSubseq(a[..|a| - 1], b[..|b| - 1]))
  }

  /** No element occurs twice. */
  predicate NoDup<T(==)>(s: seq<T>) {
    forall i, j :: 0 <= i < j < |s| ==> s[i] != s[j]
  }

  /** Index of the first occurrence of `x` in `s`. */
  function FirstIndex<T(==)>(s: seq<T>, x: T): (i: nat)
    requires x in s
    ensures i < |s| && s[i] == x
    ensures forall k :: 0 <= k < i ==> s[k] != x
  {
    if s[0] == x then 0 else 1 + FirstIndex(s[1..], x)
  }

  /** The elements of `s` in order of first appearance, each once: what
      adding `s` element by element into a JavaScript `Set` and reading it
      back with `Array.from` yields. */
  function Dedup<T(==)>(s: seq<T>): (r: seq<T>)
    ensures NoDup(r)
    ensures forall i :: 0 <= i < |s| ==> s[i] in r
    ensures forall i :: 0 <= i < |r| ==> r[i] in s
    ensures |r| <= |s|
  {
    if s == [] then []
    else
      var r := Dedup(s[..|s| - 1]);
      if s[|s| - 1] in r then r else r + [s[|s| - 1]]
  }

  /** Sum of a sequence of naturals. */
  function Sum(s: seq<nat>): nat {
    if s == [] then 0 else Sum(s[..|s| - 1]) + s[|s| - 1]
  }

  // ---------------------------------------------------------------------------
  // Filter

  lemma {:induction false} FilterMembership<T>(s: seq<T>, p: T -> bool, x: T)
    ensures x in Filter(s, p) <==> x in s && p(x)
  {
    if s != [] {
      var init := s[..|s| - 1];
      assert s == init + [s[|s| - 1]];
      FilterMembership(init, p, x);
    }
  }

  lemma {:induction false} FilterCount<T>(s: seq<T>, p: T -> bool, x: T)
    ensures Count(Filter(s, p), x) == if p(x) then Count(s, x) else 0
  {
    if s != [] {
      var init, last := s[..|s| - 1], s[|s| - 1];
      FilterCount(init, p, x);
      var f := Filter(init, p);
      if p(last) {
        assert Filter(s, p) == f + [last];
        assert (f + [last])[..|f + [last]| - 1] == f;
      } else {
        assert Filter(s, p) == f;
      }
    }
  }

  lemma {:induction false} FilterIsSubseq<T>(s: seq<T>, p: T -> bool)
    ensures IsSubseq(Filter(s, p), s)
  {
    if s != [] {
      var init, last := s[..|s| - 1], s[|s| - 1];
      FilterIsSubseq(init, p);
      var f := Filter(init, p);
      if p(last) {
        var r := f + [last];
        assert Filter(s, p) == r;
        assert r[..|r| - 1] == f;
      } else {
        assert Filter(s, p) == f;
      }
    }
  }

  /** A filter that rejects nothing returns its input. */
  lemma {:induction false} FilterKeepsAll<T>(s: seq<T>, p: T -> bool)
    requires forall i :: 0 <= i < |s| ==> p(s[i])
    ensures Filter(s, p) == s
  {
    if s != [] {
      var init, last := s[..|s| - 1], s[|s| - 1];
      assert s == init + [last];
      assert forall i :: 0 <= i < |init| ==> p(init[i]) by {
        forall i | 0 <= i < |init| ensures p(init[i]) {
          assert init[i] == s[i];
        }
      }
      FilterKeepsAll(init, p);
      FilterSnoc(init, last, p);
    }
  }

  lemma {:induction false} FilterSnoc<T>(s: seq<T>, x: T, p: T -> bool)
    ensures Filter(s + [x], p) == Filter(s, p) + (if p(x) then [x] else [])
  {
    assert (s + [x])[..|s + [x]| - 1] == s;
  }

  /** Filtering a duplicate-free sequence leaves it duplicate-free. */
  lemma {:induction false} FilterNoDup<T>(s: seq<T>, p: T -> bool)
    requires NoDup(s)
    ensures NoDup(Filter(s, p))
  {
    if s != [] {
      var init, last := s[..|s| - 1], s[|s| - 1];
      assert NoDup(init);
      FilterNoDup(init, p);
      if p(last) {
        assert last !in init by {
          forall k | 0 <= k < |init| ensures init[k] != last {
            assert s[k] == init[k];
          }
        }
        FilterMembership(init, p, last);
      }
    }
  }

  // ---------------------------------------------------------------------------
  // Count

  lemma {:induction false} CountSnoc<T>(s: seq<T>, y: T, x: T)
    ensures Count(s + [y], x) == Count(s, x) + if y == x then 1 else 0
  {
    assert (s + [y])[..|s + [y]| - 1] == s;
  }

  lemma {:induction false} CountConcat<T>(a: seq<T>, b: seq<T>, x: T)
    ensures Count(a + b, x) == Count(a, x) + Count(b, x)
    decreases |b|
  {
    if b != [] {
      var init, last := b[..|b| - 1], b[|b| - 1];
      assert a + b == (a + init) + [last];
      assert b == init + [last];
      CountSnoc(a + init, last, x);
      CountSnoc(init, last, x);
      CountConcat(a, init, x);
    } else {
      assert a + b == a;
    }
  }

  /** In a duplicate-free sequence an element occurs at most once. */
  lemma {:induction false} NoDupCount<T>(s: seq<T>, x: T)
    requires NoDup(s)
    ensures Count(s, x) == if x in s then 1 else 0
  {
    if s != [] {
      var init, last := s[..|s| - 1], s[|s| - 1];
      assert NoDup(init);
      NoDupCount(init, x);
      if last == x {
        assert x !in init by {
          forall k | 0 <= k < |init| ensures init[k] != x {
            assert s[k] == init[k];
          }
        }
      }
    }
  }

  /** Three distinct values together occur at most |s| times. */
  lemma {:induction false} CountThreeBound<T>(s: seq<T>, a: T, b: T, c: T)
    requires a != b && b != c && a != c
    ensures Count(s, a) + Count(s, b) + Count(s, c) <= |s|
  {
    if s != [] {
      CountThreeBound(s[..|s| - 1], a, b, c);
    }
  }

  // ---------------------------------------------------------------------------
  // Subsequences

  /** A subsequence keeps membership: nothing appears that `b` lacks. */
  lemma {:induction false} SubseqMembership<T>(a: seq<T>, b: seq<T>, x: T)
    requires IsSubseq(a, b) && x in a
    ensures x in b
    decreases |b|
  {
    var init := b[..|b| - 1];
    if IsSubseq(a, init) {
      SubseqMembership(a, init, x);
    } else if x != a[|a| - 1] {
      assert a == a[..|a| - 1] + [a[|a| - 1]];
      SubseqMembership(a[..|a| - 1], init, x);
    }
  }

  // ---------------------------------------------------------------------------
  // Dedup

  lemma {:induction false} FirstIndexSnoc<T>(s: seq<T>, y: T, x: T)
    requires x in s
    ensures FirstIndex(s + [y], x) == FirstIndex(s, x)
  {
    if s[0] != x {
      assert (s + [y])[1..] == s[1..] + [y];
      FirstIndexSnoc(s[1..], y, x);
    }
  }

  /** Adding one more element to a `Set`. */
  lemma {:induction false} DedupSnoc<T>(s: seq<T>, x: T)
    ensures Dedup(s + [x]) == if x in Dedup(s) then Dedup(s) else Dedup(s) + [x]
  {
    assert (s + [x])[..|s + [x]| - 1] == s;
  }

  /** `Dedup` lists elements in order of their first appearance in `s`. */
  lemma {:induction false} DedupFirstAppearanceOrder<T>(s: seq<T>, i: nat, j: nat)
    requires i < j < |Dedup(s)|
    ensures FirstIndex(s, Dedup(s)[i]) < FirstIndex(s, Dedup(s)[j])
  {
    var init, last := s[..|s| - 1], s[|s| - 1];
    assert s == init + [last];
    var r := Dedup(init);
    var ri, rj := Dedup(s)[i], Dedup(s)[j];
    if last in r {
      DedupFirstAppearanceOrder(init, i, j);
      FirstIndexSnoc(init, last, ri);
      FirstIndexSnoc(init, last, rj);
    } else if j < |r| {
      DedupFirstAppearanceOrder(init, i, j);
      FirstIndexSnoc(init, last, ri);
      FirstIndexSnoc(init, last, rj);
    } else {
      // rj is `last`, which does not occur in `init`
      assert rj == last && last !in init;
      assert ri in init;
      FirstIndexSnoc(init, last, ri);
      assert forall k :: 0 <= k < |init| ==> s[k] == init[k] != last;
    }
  }

  // ---------------------------------------------------------------------------
  // Sum

  lemma {:induction false} SumConcat(a: seq<nat>, b: seq<nat>)
    ensures Sum(a + b) == Sum(a) + Sum(b)
    decreases |b|
  {
    if b != [] {
      assert a + b == (a + b[..|b| - 1]) + [b[|b| - 1]];
      SumConcat(a, b[..|b| - 1]);
    } else {
      assert a + b == a;
    }
  }
}
