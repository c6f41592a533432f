/** Counter dictionaries: the `{ key: count }` objects that the analytics code
    builds with `counts[k] = (counts[k] || 0) + 1`. */
module Counters {
  import opened Seqs

  /** `m[k] || 0`: an absent key reads as zero. */
  function Get(m: map<string, nat>, k: string): nat {
    if k in m then m[k] else 0
  }

  /** `{ ...m, [k]: (m[k] || 0) + 1 }`. */
  function Bump(m: map<string, nat>, k: string): (r: map<string, nat>)
    ensures r.Keys == m.Keys + {k}
    ensures Get(r, k) == Get(m, k) + 1
    ensures forall j :: j != k ==> Get(r, j) == Get(m, j)
  {
    m[k := Get(m, k) + 1]
  }

  /** `m` after bumping each key of `keys` in turn. */
  function Tally(m: map<string, nat>, keys: seq<string>): map<string, nat> {
    if keys == [] then m else Bump(Tally(m, keys[..|keys| - 1]), keys[|keys| - 1])
  }

  /** `keys.forEach(k => { m[k] = (m[k] || 0) + 1 })` on a copy of `m`. */
  method BumpEach(m: map<string, nat>, keys: seq<string>) returns (r: map<string, nat>)
    ensures r == Tally(m, keys)
    ensures forall k :: Get(r, k) == Get(m, k) + Count(keys, k)
  {
    r := m;
    var j := 0;
    while j < |keys|
      invariant 0 <= j <= |keys|
      invariant r == Tally(m, keys[..j])
    {
      TallySnoc(m, keys[..j], keys[j]);
      assert keys[..j + 1] == keys[..j] + [keys[j]];
      r := Bump(r, keys[j]);
      j := j + 1;
    }
    assert keys[..j] == keys;
    forall k ensures Get(r, k) == Get(m, k) + Count(keys, k) {
      TallyGet(m, keys, k);
    }
  }

  /** Tallying adds to each key the number of times it occurs in `keys`. */
  lemma {:induction false} TallyGet(m: map<string, nat>, keys: seq<string>, k: string)
    ensures Get(Tally(m, keys), k) == Get(m, k) + Count(keys, k)
  {
    if keys != [] {
      TallyGet(m, keys[..|keys| - 1], k);
    }
  }

  /** Tallying adds exactly the keys that occur in `keys`. */
  lemma {:induction false} TallyKeys(m: map<string, nat>, keys: seq<string>, k: string)
    ensures k in Tally(m, keys) <==> k in m || k in keys
  {
    if keys != [] {
      var init := keys[..|keys| - 1];
      assert keys == init + [keys[|keys| - 1]];
      TallyKeys(m, init, k);
    }
  }

  /** One more key at the end is one more bump. */
  lemma {:induction false} TallySnoc(m: map<string, nat>, keys: seq<string>, k: string)
    ensures Tally(m, keys + [k]) == Bump(Tally(m, keys), k)
  {
    assert (keys + [k])[..|keys + [k]| - 1] == keys;
  }
}
