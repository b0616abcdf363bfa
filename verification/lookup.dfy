/** Lookup maps built from lists, the `new Map(list.map(x => [x.id, x]))`
    idiom the hooks use for every join. A later element with the same id
    overwrites an earlier one. */
module Lookup {
  import opened Common

  /** The ids occurring in `s`. */
  function KeySet<T>(s: seq<T>, key: T -> int): (ks: set<int>)
    ensures forall i :: 0 <= i < |s| ==> key(s[i]) in ks
    ensures forall k :: k in ks ==> exists i :: 0 <= i < |s| && key(s[i]) == k
  {
    if |s| == 0 then {}
    else
      var ks := KeySet(s[..|s| - 1], key);
      assert forall i :: 0 <= i < |s| - 1 ==> s[..|s| - 1][i] == s[i];
      ks + {key(s[|s| - 1])}
  }

  /** Builds the id-keyed map by inserting the elements left to right. */
  function IndexBy<T>(s: seq<T>, key: T -> int): (m: map<int, T>)
    ensures m.Keys == KeySet(s, key)
    ensures forall k :: k in m ==> key(m[k]) == k
  {
    if |s| == 0 then map[]
    else IndexBy(s[..|s| - 1], key)[key(s[|s| - 1]) := s[|s| - 1]]
  }

  /** `Map.get`: the value under `k`, if any. */
  function Get<T>(m: map<int, T>, k: int): Option<T> {
    if k in m then Some(m[k]) else None
  }

  /** Reference definition: scanning from the back, the index of the last
      element whose key is `k`. */
  function LastIndexWithKey<T>(s: seq<T>, key: T -> int, k: int): (r: Option<nat>)
    ensures r.None? <==> forall i :: 0 <= i < |s| ==> key(s[i]) != k
    ensures r.Some? ==> r.value < |s| && key(s[r.value]) == k
    ensures r.Some? ==> forall j :: r.value < j < |s| ==> key(s[j]) != k
  {
    if |s| == 0 then None
    else if key(s[|s| - 1]) == k then Some(|s| - 1)
    else
      var r := LastIndexWithKey(s[..|s| - 1], key, k);
      assert forall i :: 0 <= i < |s| - 1 ==> s[..|s| - 1][i] == s[i];
      r
  }

  /** The last element whose key is `k`. */
  function LastWithKey<T>(s: seq<T>, key: T -> int, k: int): Option<T> {
    match LastIndexWithKey(s, key, k)
    case None => None
    case Some(i) => Some(s[i])
  }

  /** The map holds exactly the last element of every id: a lookup in the
      built map agrees with a backwards scan of the list. */
  lemma {:induction false} IndexByIsLastWins<T>(s: seq<T>, key: T -> int, k: int)
    ensures Get(IndexBy(s, key), k) == LastWithKey(s, key, k)
  {
    if |s| > 0 {
      IndexByIsLastWins(s[..|s| - 1], key, k);
    }
  }

  /** The same, for every id at once. */
  lemma IndexByAgrees<T>(s: seq<T>, key: T -> int)
    ensures forall k :: Get(IndexBy(s, key), k) == LastWithKey(s, key, k)
  {
    forall k {
      IndexByIsLastWins(s, key, k);
    }
  }

  /** Consequence: when ids are distinct, every element is found under its own id. */
  lemma IndexByDistinct<T>(s: seq<T>, key: T -> int, i: int)
    requires 0 <= i < |s|
    requires forall a, b :: 0 <= a < b < |s| ==> key(s[a]) != key(s[b])
    ensures Get(IndexBy(s, key), key(s[i])) == Some(s[i])
  {
    IndexByIsLastWins(s, key, key(s[i]));
  }
}
