/**
 * Python dictionaries as ordered lists of (key, value) pairs, in insertion
 * order, and the two dictionary operations the inventory builder relies on:
 * lookup and `dict.update`.
 */
module Dicts {
  import opened Wrappers

  /** The keys of a pair list, in order. */
  function Keys<V>(f: seq<(string, V)>): seq<string> {
    seq(|f|, i requires 0 <= i < |f| => f[i].0)
  }

  predicate Distinct(s: seq<string>) {
    forall i, j :: 0 <= i < j < |s| ==> s[i] != s[j]
  }

  lemma KeysSnoc<V>(f: seq<(string, V)>)
    requires f != []
    ensures Keys(f) == Keys(f[..|f| - 1]) + [f[|f| - 1].0]
  {
  }

  lemma KeysAppend<V>(a: seq<(string, V)>, b: seq<(string, V)>)
    ensures Keys(a + b) == Keys(a) + Keys(b)
  {
  }

  /**
   * Lookup of `k`. When a key occurs more than once the later pair wins, as
   * in a dictionary built by inserting the pairs in order.
   */
  function Get<V>(f: seq<(string, V)>, k: string): (r: Option<V>)
    ensures r.None? <==> k !in Keys(f)
    ensures r.Some? ==> (k, r.value) in f
  {
    if f == [] then None
    else
      KeysSnoc(f);
      if f[|f| - 1].0 == k then Some(f[|f| - 1].1)
      else Get(f[..|f| - 1], k)
  }

  /** A lookup in a concatenation finds the key in the later part first. */
  lemma {:induction false} GetAppend<V>(a: seq<(string, V)>, b: seq<(string, V)>, k: string)
    ensures Get(a + b, k) == if k in Keys(b) then Get(b, k) else Get(a, k)
  {
    if b == [] {
      assert a + b == a;
    } else {
      var n := |b| - 1;
      assert (a + b)[..|a + b| - 1] == a + b[..n];
      KeysSnoc(b);
      GetAppend(a, b[..n], k);
    }
  }

  /** With distinct keys, each pair is found under its own key. */
  lemma {:induction false} GetDistinct<V>(f: seq<(string, V)>, i: nat)
    requires Distinct(Keys(f))
    requires i < |f|
    ensures Get(f, f[i].0) == Some(f[i].1)
  {
    var n := |f| - 1;
    if i < n {
      assert Keys(f)[i] == f[i].0 && Keys(f)[n] == f[n].0;
      assert Keys(f[..n]) == Keys(f)[..n];
      GetDistinct(f[..n], i);
    }
  }

  /**
   * `m.update(f)`: every key of `f` is set to its (last) value in `f`, the
   * other keys of `m` keep their values, and nothing else is added.
   */
  function Update<V>(m: map<string, V>, f: seq<(string, V)>): (r: map<string, V>)
    ensures forall k :: k in r <==> k in m || k in Keys(f)
    ensures forall k :: k in Keys(f) ==> k in r && Some(r[k]) == Get(f, k)
    ensures forall k :: k in m && k !in Keys(f) ==> r[k] == m[k]
  {
    if f == [] then m
    else
      KeysSnoc(f);
      Update(m, f[..|f| - 1])[f[|f| - 1].0 := f[|f| - 1].1]
  }

  /** Updating with a concatenation is updating with each part in turn. */
  lemma {:induction false} UpdateAppend<V>(m: map<string, V>, a: seq<(string, V)>, b: seq<(string, V)>)
    ensures Update(m, a + b) == Update(Update(m, a), b)
  {
    if b == [] {
      assert a + b == a;
    } else {
      var n := |b| - 1;
      assert (a + b)[..|a + b| - 1] == a + b[..n];
      UpdateAppend(m, a, b[..n]);
    }
  }
}
