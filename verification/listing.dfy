/** Ordered listings: the `ORDER BY key DESC` the handlers put on their queries, as a sequence
    holding each selected id once, ordered by a sort key from largest to smallest. */
module Listing {

  /** `s` lists each id of `ids` exactly once. */
  predicate Enumerates(s: seq<nat>, ids: set<nat>) {
    && (forall i :: 0 <= i < |s| ==> s[i] in ids)
    && (forall id :: id in ids ==> id in s)
    && (forall i, j :: 0 <= i < j < |s| ==> s[i] != s[j])
  }

  /** Keys never increase along `s`. */
  predicate NonIncreasing(s: seq<nat>, key: map<nat, int>)
    requires forall i :: 0 <= i < |s| ==> s[i] in key
  {
    forall i, j :: 0 <= i < j < |s| ==> key[s[i]] >= key[s[j]]
  }

  /** An id of `ids` with the largest key. */
  method Largest(ids: set<nat>, key: map<nat, int>) returns (m: nat)
    requires ids != {} && ids <= key.Keys
    ensures m in ids
    ensures forall j :: j in ids ==> key[j] <= key[m]
  {
    m :| m in ids;
    var rest := ids - {m};
    while rest != {}
      invariant rest <= ids && m in ids
      invariant forall j :: j in ids - rest ==> key[j] <= key[m]
      decreases |rest|
    {
      var j :| j in rest;
      if key[j] > key[m] {
        m := j;
      }
      rest := rest - {j};
    }
  }

  /** The ids sorted by key, largest first. Ties keep an unspecified order, as in SQL. */
  method Descending(ids: set<nat>, key: map<nat, int>) returns (s: seq<nat>)
    requires ids <= key.Keys
    ensures Enumerates(s, ids)
    ensures forall i :: 0 <= i < |s| ==> s[i] in key
    ensures NonIncreasing(s, key)
    ensures |s| == |ids|
  {
    s := [];
    var remaining := ids;
    while remaining != {}
      invariant remaining <= ids
      invariant forall i :: 0 <= i < |s| ==> s[i] in ids && s[i] !in remaining
      invariant forall id :: id in ids ==> id in s || id in remaining
      invariant forall i, j :: 0 <= i < j < |s| ==> s[i] != s[j]
      invariant forall i, j :: 0 <= i < j < |s| ==> key[s[i]] >= key[s[j]]
      invariant forall i, r :: 0 <= i < |s| && r in remaining ==> key[s[i]] >= key[r]
      invariant |s| + |remaining| == |ids|
      decreases |remaining|
    {
      var m := Largest(remaining, key);
      s := s + [m];
      remaining := remaining - {m};
    }
  }

  /** Values strictly increase along `s` (so none repeats). */
  predicate StrictlyIncreasing(s: seq<int>) {
    forall i, j :: 0 <= i < j < |s| ==> s[i] < s[j]
  }

  /** The values of a non-increasing sequence, each once, in ascending order: the
      `SELECT DISTINCT ... ORDER BY` of a column read off rows sorted largest first. */
  method AscendingDistinct(s: seq<int>) returns (r: seq<int>)
    requires forall i, j :: 0 <= i < j < |s| ==> s[i] >= s[j]
    ensures forall v :: v in r <==> v in s
    ensures StrictlyIncreasing(r)
  {
    r := [];
    var i := |s|;
    while i > 0
      invariant 0 <= i <= |s|
      invariant forall v :: v in r <==> v in s[i..]
      invariant StrictlyIncreasing(r)
      invariant i < |s| ==> |r| > 0 && r[|r| - 1] == s[i]
      decreases i
    {
      i := i - 1;
      assert s[i..] == [s[i]] + s[i + 1..];
      if r == [] || r[|r| - 1] != s[i] {
        if r != [] {
          assert r[|r| - 1] in s[i + 1..];
          assert r[|r| - 1] == s[i + 1] <= s[i];
        }
        r := r + [s[i]];
      }
    }
  }

  /** The first `n` entries (`.limit(n)`), or all of them when there are fewer. */
  function Take(s: seq<nat>, n: nat): (r: seq<nat>)
    ensures |r| == if |s| < n then |s| else n
    ensures r == s[..|r|]
  {
    if |s| <= n then s else s[..n]
  }

  /** The first `n` of a descending listing of `ids` are `n` distinct ids of `ids` (all of
      them when there are fewer), in descending order, and no id left out ranks higher than
      the last one kept. */
  lemma TakeSorted(s: seq<nat>, ids: set<nat>, key: map<nat, int>, n: nat)
    requires Enumerates(s, ids) && |s| == |ids| && (forall i :: 0 <= i < |s| ==> s[i] in key) && NonIncreasing(s, key)
    ensures var t := Take(s, n);
      && |t| == (if |ids| < n then |ids| else n)
      && (forall i :: 0 <= i < |t| ==> t[i] in ids && t[i] in key)
      && (forall i, j :: 0 <= i < j < |t| ==> t[i] != t[j] && key[t[i]] >= key[t[j]])
      && (forall id :: id in ids && id !in t && |t| > 0 ==> id in key && key[id] <= key[t[|t| - 1]])
  {
    var t := Take(s, n);
    assert forall i :: 0 <= i < |t| ==> t[i] == s[i];
    TakeKeepsTop(s, ids, key, n);
  }

  /** The first `n` of a descending listing are the top `n`: every id left out ranks no
      higher than the last one kept. */
  lemma TakeKeepsTop(s: seq<nat>, ids: set<nat>, key: map<nat, int>, n: nat)
    requires Enumerates(s, ids) && (forall i :: 0 <= i < |s| ==> s[i] in key) && NonIncreasing(s, key)
    ensures var t := Take(s, n);
      forall id :: id in ids && id !in t && |t| > 0 ==> id in key && key[id] <= key[t[|t| - 1]]
  {
    var t := Take(s, n);
    forall id | id in ids && id !in t && |t| > 0
      ensures id in key && key[id] <= key[t[|t| - 1]]
    {
      var j :| 0 <= j < |s| && s[j] == id;
      assert forall k :: 0 <= k < |t| ==> t[k] == s[k];
      assert |t| <= j;
      assert s[|t| - 1] == t[|t| - 1];
    }
  }
}
