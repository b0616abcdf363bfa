/** Grouping a list by a string key, the
    `list.reduce((acc, x) => { (acc[key(x)] ??= []).push(x); return acc }, {})`
    idiom of the fixture cards. Groups are kept as a sequence in order of
    their key's first occurrence, which is the order in which the reduce
    creates the object's properties. */
module Grouping {
  import opened Common

  datatype Group<T> = Group(key: string, items: seq<T>)

  /** Elements whose key is `k`. */
  function HasKey<T>(key: T -> string, k: string): T -> bool {
    x => key(x) == k
  }

  /** The group keys, in group order. */
  function KeysOf<T>(gs: seq<Group<T>>): (ks: seq<string>)
    ensures |ks| == |gs|
    ensures forall i :: 0 <= i < |gs| ==> ks[i] == gs[i].key
  {
    if |gs| == 0 then [] else [gs[0].key] + KeysOf(gs[1..])
  }

  /** The key of every element, in element order. */
  function KeyList<T>(s: seq<T>, key: T -> string): (ks: seq<string>)
    ensures |ks| == |s|
    ensures forall i :: 0 <= i < |s| ==> ks[i] == key(s[i])
  {
    if |s| == 0 then [] else [key(s[0])] + KeyList(s[1..], key)
  }

  /** All group members, group after group. */
  function Flatten<T>(gs: seq<Group<T>>): seq<T> {
    if |gs| == 0 then [] else gs[0].items + Flatten(gs[1..])
  }

  /** Position of the first element with key `k`, or `|s|` if there is none. */
  function FirstOccurrence<T>(s: seq<T>, key: T -> string, k: string): nat {
    FirstIndex(s, HasKey(key, k)).GetOr(|s|)
  }

  /** Appends `x` to the group for `k`, or opens a new group at the end:
      `(acc[k] ??= []).push(x)`. */
  function AddTo<T>(gs: seq<Group<T>>, k: string, x: T): (r: seq<Group<T>>)
    requires Distinct(KeysOf(gs))
    ensures KeysOf(r) == if k in KeysOf(gs) then KeysOf(gs) else KeysOf(gs) + [k]
    ensures forall i :: 0 <= i < |r| ==>
      r[i].items == if r[i].key != k then gs[i].items
                    else if k in KeysOf(gs) then gs[i].items + [x]
                    else [x]
    ensures multiset(Flatten(r)) == multiset(Flatten(gs)) + multiset{x}
  {
    match FirstIndex(KeysOf(gs), (key: string) => key == k)
    case None =>
      var r := gs + [Group(k, [x])];
      OpenGroup(gs, k, x);
      r
    case Some(i) =>
      var r := gs[i := Group(k, gs[i].items + [x])];
      GrowGroup(gs, i, k, x);
      r
  }

  /** A key not yet present opens a new group at the end. */
  lemma OpenGroup<T>(gs: seq<Group<T>>, k: string, x: T)
    requires k !in KeysOf(gs)
    ensures var r := gs + [Group(k, [x])]; KeysOf(r) == KeysOf(gs) + [k]
    ensures var r := gs + [Group(k, [x])]; forall j :: 0 <= j < |r| ==>
              r[j].items == if r[j].key != k then gs[j].items else [x]
    ensures multiset(Flatten(gs + [Group(k, [x])])) == multiset(Flatten(gs)) + multiset{x}
  {
    var r := gs + [Group(k, [x])];
    FlattenAppend(gs, Group(k, [x]));
    assert KeysOf(r) == KeysOf(gs) + [k];
    forall i | 0 <= i < |gs|
      ensures r[i].key != k
    {
      assert KeysOf(gs)[i] == gs[i].key;
    }
  }

  /** A key already present grows its own group and no other. */
  lemma GrowGroup<T>(gs: seq<Group<T>>, i: nat, k: string, x: T)
    requires Distinct(KeysOf(gs))
    requires i < |gs| && gs[i].key == k
    ensures k in KeysOf(gs)
    ensures KeysOf(gs[i := Group(k, gs[i].items + [x])]) == KeysOf(gs)
    ensures var r := gs[i := Group(k, gs[i].items + [x])]; forall j :: 0 <= j < |r| ==>
              r[j].items == if r[j].key != k then gs[j].items else gs[j].items + [x]
    ensures multiset(Flatten(gs[i := Group(k, gs[i].items + [x])])) == multiset(Flatten(gs)) + multiset{x}
  {
    var r := gs[i := Group(k, gs[i].items + [x])];
    var ks := KeysOf(gs);
    FlattenPushAt(gs, i, x);
    KeysOfUpdate(gs, i, Group(k, gs[i].items + [x]));
    assert ks[i] == k && k in ks;
    forall j | 0 <= j < |r|
      ensures r[j].items == if r[j].key != k then gs[j].items else gs[j].items + [x]
    {
      if j != i {
        assert r[j] == gs[j];
        if j < i {
          assert ks[j] != ks[i];
        } else {
          assert ks[i] != ks[j];
        }
      }
    }
  }

  lemma {:induction false} FlattenAppend<T>(gs: seq<Group<T>>, g: Group<T>)
    ensures Flatten(gs + [g]) == Flatten(gs) + g.items
  {
    if |gs| > 0 {
      assert (gs + [g])[1..] == gs[1..] + [g];
      FlattenAppend(gs[1..], g);
    }
  }

  /** Replacing a group by one with the same key keeps the key list. */
  lemma KeysOfUpdate<T>(gs: seq<Group<T>>, i: nat, g: Group<T>)
    requires i < |gs| && g.key == gs[i].key
    ensures KeysOf(gs[i := g]) == KeysOf(gs)
  {
    var a, b := KeysOf(gs[i := g]), KeysOf(gs);
    assert forall j :: 0 <= j < |a| ==> a[j] == b[j];
  }

  lemma {:induction false} FlattenPushAt<T>(gs: seq<Group<T>>, i: nat, x: T)
    requires i < |gs|
    ensures multiset(Flatten(gs[i := Group(gs[i].key, gs[i].items + [x])]))
         == multiset(Flatten(gs)) + multiset{x}
  {
    var g := Group(gs[i].key, gs[i].items + [x]);
    var r := gs[i := g];
    if i > 0 {
      assert r[1..] == gs[1..][i - 1 := g];
      FlattenPushAt(gs[1..], i - 1, x);
      assert Flatten(r) == gs[0].items + Flatten(r[1..]);
      assert multiset(Flatten(r)) == multiset(gs[0].items) + multiset(Flatten(r[1..]));
    } else {
      assert r[1..] == gs[1..];
      assert Flatten(r) == gs[0].items + [x] + Flatten(gs[1..]);
    }
  }

  /** Each group holds exactly the elements with its key, in input order. */
  ghost predicate GroupsAreFilters<T>(s: seq<T>, key: T -> string, gs: seq<Group<T>>) {
    forall i :: 0 <= i < |gs| ==> gs[i].items == Filter(s, HasKey(key, gs[i].key))
  }

  /** Every element's key is among `ks`. */
  ghost predicate CoversKeys<T>(s: seq<T>, key: T -> string, ks: seq<string>) {
    forall j :: 0 <= j < |s| ==> key(s[j]) in ks
  }

  /** Every key in `ks` is the key of some element. */
  ghost predicate KeysOccur<T>(s: seq<T>, key: T -> string, ks: seq<string>) {
    forall i :: 0 <= i < |ks| ==> ks[i] in KeyList(s, key)
  }

  /** `ks` lists keys in order of their first occurrence in `s`. */
  ghost predicate OrderedByFirstOccurrence<T>(s: seq<T>, key: T -> string, ks: seq<string>) {
    forall i, j :: 0 <= i < j < |ks| ==> FirstOccurrence(s, key, ks[i]) < FirstOccurrence(s, key, ks[j])
  }

  /** `gs` groups `s` by `key`: distinct keys, each group holding exactly the
      elements with its key in input order, every element's key present,
      groups ordered by the first occurrence of their key, nothing lost. */
  ghost predicate IsGrouping<T>(s: seq<T>, key: T -> string, gs: seq<Group<T>>) {
    && Distinct(KeysOf(gs))
    && GroupsAreFilters(s, key, gs)
    && CoversKeys(s, key, KeysOf(gs))
    && KeysOccur(s, key, KeysOf(gs))
    && OrderedByFirstOccurrence(s, key, KeysOf(gs))
    && multiset(Flatten(gs)) == multiset(s)
  }

  /** The grouping reduce, one element at a time from the left. */
  function GroupBy<T>(s: seq<T>, key: T -> string): (gs: seq<Group<T>>)
    ensures IsGrouping(s, key, gs)
  {
    if |s| == 0 then []
    else
      var prev := GroupBy(s[..|s| - 1], key);
      AddToKeepsGrouping(s, key, prev);
      AddTo(prev, key(s[|s| - 1]), s[|s| - 1])
  }

  /** One step of the reduce turns a grouping of all but the last element
      into a grouping of the whole. */
  lemma AddToKeepsGrouping<T>(s: seq<T>, key: T -> string, prev: seq<Group<T>>)
    requires |s| > 0
    requires IsGrouping(s[..|s| - 1], key, prev)
    ensures IsGrouping(s, key, AddTo(prev, key(s[|s| - 1]), s[|s| - 1]))
  {
    var init, x := s[..|s| - 1], s[|s| - 1];
    assert s == init + [x];
    var ks := KeysOf(prev);
    StepFilters(init, x, key, prev);
    StepKeys(init, x, key, ks);
    StepOrder(init, x, key, ks);
    assert multiset(s) == multiset(init) + multiset{x};
  }

  lemma StepFilters<T>(init: seq<T>, x: T, key: T -> string, prev: seq<Group<T>>)
    requires Distinct(KeysOf(prev))
    requires GroupsAreFilters(init, key, prev)
    requires CoversKeys(init, key, KeysOf(prev))
    ensures GroupsAreFilters(init + [x], key, AddTo(prev, key(x), x))
  {
    var s := init + [x];
    var r := AddTo(prev, key(x), x);
    forall i | 0 <= i < |r|
      ensures r[i].items == Filter(s, HasKey(key, r[i].key))
    {
      FilterSnoc(init, x, HasKey(key, r[i].key));
      if i >= |prev| {
        NoElementWithMissingKey(init, key, KeysOf(prev), key(x));
      }
    }
  }

  /** A key outside `ks` selects no element. */
  lemma NoElementWithMissingKey<T>(s: seq<T>, key: T -> string, ks: seq<string>, k: string)
    requires CoversKeys(s, key, ks)
    requires k !in ks
    ensures Filter(s, HasKey(key, k)) == []
  {
  }

  lemma StepKeys<T>(init: seq<T>, x: T, key: T -> string, ks: seq<string>)
    requires Distinct(ks)
    requires CoversKeys(init, key, ks)
    requires KeysOccur(init, key, ks)
    ensures var ks' := if key(x) in ks then ks else ks + [key(x)];
      Distinct(ks') && CoversKeys(init + [x], key, ks') && KeysOccur(init + [x], key, ks')
  {
    assert KeyList(init + [x], key) == KeyList(init, key) + [key(x)];
  }

  lemma StepOrder<T>(init: seq<T>, x: T, key: T -> string, ks: seq<string>)
    requires CoversKeys(init, key, ks)
    requires KeysOccur(init, key, ks)
    requires OrderedByFirstOccurrence(init, key, ks)
    ensures OrderedByFirstOccurrence(init + [x], key, if key(x) in ks then ks else ks + [key(x)])
  {
    var s := init + [x];
    forall i | 0 <= i < |ks|
      ensures FirstOccurrence(s, key, ks[i]) == FirstOccurrence(init, key, ks[i]) < |init|
    {
      FirstIndexSnoc(init, x, HasKey(key, ks[i]));
      var j :| 0 <= j < |init| && KeyList(init, key)[j] == ks[i];
      assert HasKey(key, ks[i])(init[j]);
    }
    if key(x) !in ks {
      FirstIndexSnoc(init, x, HasKey(key, key(x)));
      assert FirstIndex(init, HasKey(key, key(x))).None?;
    }
  }

  /** Extending a sequence does not move an existing first occurrence, and a
      new one can only be the appended element. */
  lemma {:induction false} FirstIndexSnoc<T>(s: seq<T>, x: T, p: T -> bool)
    ensures FirstIndex(s + [x], p)
         == if FirstIndex(s, p).Some? then FirstIndex(s, p)
            else if p(x) then Some(|s|) else None
  {
    if |s| > 0 {
      assert (s + [x])[1..] == s[1..] + [x];
      FirstIndexSnoc(s[1..], x, p);
    }
  }

  /** Every element lands in exactly one group: group sizes add up to the
      input length. */
  lemma GroupSizesSum<T>(s: seq<T>, key: T -> string)
    ensures |Flatten(GroupBy(s, key))| == |s|
  {
    var gs := GroupBy(s, key);
    assert multiset(Flatten(gs)) == multiset(s);
    assert |multiset(Flatten(gs))| == |multiset(s)|;
  }

  function GroupSize<T>(g: Group<T>): int { |g.items| }

  /** The flattened length is the sum of the group sizes. */
  lemma {:induction false} FlattenSize<T>(gs: seq<Group<T>>)
    ensures |Flatten(gs)| == SumBy(gs, GroupSize)
  {
    if |gs| > 0 {
      FlattenSize(gs[1..]);
    }
  }

  /** The items of the group with key `k` (`acc[k]`), empty if there is none. */
  function ItemsAt<T>(gs: seq<Group<T>>, k: string): seq<T> {
    match FirstIndex(KeysOf(gs), (key: string) => key == k)
    case Some(i) => gs[i].items
    case None => []
  }

  /** In a grouping, looking up a key gives exactly the elements with that key. */
  lemma ItemsAtIsFilter<T>(s: seq<T>, key: T -> string, gs: seq<Group<T>>, k: string)
    requires GroupsAreFilters(s, key, gs) && CoversKeys(s, key, KeysOf(gs))
    ensures ItemsAt(gs, k) == Filter(s, HasKey(key, k))
  {
    if k !in KeysOf(gs) {
      NoElementWithMissingKey(s, key, KeysOf(gs), k);
    }
  }

  /** Two lists of groups of `s` with the same keys, in any order, hold the
      same number of elements. */
  lemma GroupSumsAgree<T>(s: seq<T>, key: T -> string, a: seq<Group<T>>, b: seq<Group<T>>)
    requires GroupsAreFilters(s, key, a) && GroupsAreFilters(s, key, b)
    requires multiset(KeysOf(a)) == multiset(KeysOf(b))
    ensures SumBy(a, GroupSize) == SumBy(b, GroupSize)
  {
    var size := (k: string) => |Filter(s, HasKey(key, k))|;
    SumByMap(a, GroupSize, KeysOf(a), size);
    SumByPermutation(KeysOf(a), KeysOf(b), size);
    SumByMap(b, GroupSize, KeysOf(b), size);
  }

  /** No input, no groups. */
  lemma GroupByEmpty<T>(s: seq<T>, key: T -> string)
    ensures GroupBy(s, key) == [] <==> s == []
  {
    if s != [] {
      assert key(s[0]) in KeysOf(GroupBy(s, key));
    }
  }
}
