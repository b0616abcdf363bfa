/** The planning view's fixtures card (src/components/gw-overview/FixturesCard.tsx):
    fixtures grouped by their date string and listed in the object's own
    property order (`Object.entries`). That order puts "array index" keys
    (canonical decimal numbers below 2^32 - 1) first, in numeric order, and
    every other key after them in the order the reduce created it. */
module FixturesCardEntries {
  import opened Common
  import opened Sorting
  import opened Text
  import opened Grouping

  predicate IsIndexGroup<T>(g: Group<T>) { IsArrayIndex(g.key) }
  predicate IsNamedGroup<T>(g: Group<T>) { !IsArrayIndex(g.key) }

  /** The numeric value of an array-index key (0 for any other key). */
  function KeyNumber(k: string): nat {
    if IsArrayIndex(k) then ParseDigits(k) else 0
  }

  function IndexLe<T>(a: Group<T>, b: Group<T>): bool {
    KeyNumber(a.key) <= KeyNumber(b.key)
  }

  lemma IndexLeIsPreorder<T(!new)>()
    ensures TotalPreorder(IndexLe<T>)
  {
  }

  /** Own-property order of the grouped object. */
  function EntriesOrder<T(!new)>(groups: seq<Group<T>>): (r: seq<Group<T>>)
    ensures |r| == |groups|
    ensures multiset(r) == multiset(groups)
    ensures var n := |Filter(groups, IsIndexGroup)|;
      && (forall i :: 0 <= i < n ==> IsArrayIndex(r[i].key))
      && (forall i, j :: 0 <= i < j < n ==> KeyNumber(r[i].key) <= KeyNumber(r[j].key))
      && r[n..] == Filter(groups, IsNamedGroup)
  {
    IndexLeIsPreorder<T>();
    FilterPartition(groups, IsIndexGroup, IsNamedGroup);
    var indexed := Sort(Filter(groups, IsIndexGroup), IndexLe);
    assert forall i :: 0 <= i < |indexed| ==> indexed[i] in multiset(Filter(groups, IsIndexGroup));
    indexed + Filter(groups, IsNamedGroup)
  }

  /** The card's sections: the date groups in `Object.entries` order, every
      section holding exactly its date's fixtures in input order. */
  function DateEntries<T(!new)>(fixtures: seq<T>, date: T -> string): (r: seq<Group<T>>)
    ensures GroupsAreFilters(fixtures, date, r)
    ensures multiset(r) == multiset(GroupBy(fixtures, date))
    ensures r == EntriesOrder(GroupBy(fixtures, date))
    ensures var n := |Filter(GroupBy(fixtures, date), IsIndexGroup)|;
      && (forall i :: 0 <= i < n ==> IsArrayIndex(r[i].key))
      && (forall i, j :: 0 <= i < j < n ==> KeyNumber(r[i].key) <= KeyNumber(r[j].key))
      && r[n..] == Filter(GroupBy(fixtures, date), IsNamedGroup)
  {
    var groups := GroupBy(fixtures, date);
    var r := EntriesOrder(groups);
    forall i | 0 <= i < |r|
      ensures r[i].items == Filter(fixtures, HasKey(date, r[i].key))
    {
      assert r[i] in multiset(groups);
    }
    r
  }

  /** Every fixture is shown exactly once: the rendered rows number the
      fixtures. */
  lemma RowsCoverFixtures<T(!new)>(fixtures: seq<T>, date: T -> string)
    ensures SumBy(DateEntries(fixtures, date), GroupSize) == |fixtures|
  {
    var groups := GroupBy(fixtures, date);
    SumByPermutation(DateEntries(fixtures, date), groups, GroupSize);
    FlattenSize(groups);
    GroupSizesSum(fixtures, date);
  }

  /** With no array-index key among them, the groups keep their order. */
  lemma NamedGroupsKeepOrder<T(!new)>(groups: seq<Group<T>>)
    requires forall i :: 0 <= i < |groups| ==> !IsArrayIndex(groups[i].key)
    ensures EntriesOrder(groups) == groups
  {
    FilterAllOrNone(groups, IsIndexGroup);
    FilterAllOrNone(groups, IsNamedGroup);
  }

  /** A property every element's key has, every occurring key has. */
  lemma OccurringKeysShare<T>(s: seq<T>, key: T -> string, ks: seq<string>, p: string -> bool)
    requires forall j :: 0 <= j < |s| ==> p(key(s[j]))
    requires KeysOccur(s, key, ks)
    ensures forall i :: 0 <= i < |ks| ==> p(ks[i])
  {
    var keys := KeyList(s, key);
    forall i | 0 <= i < |ks|
      ensures p(ks[i])
    {
      assert ks[i] in keys;
    }
  }

  /** When no date string is an array index (dates such as "Sat 15 Mar"),
      sections appear in order of their date's first occurrence. */
  lemma NamedDatesKeepFirstOccurrence<T(!new)>(fixtures: seq<T>, date: T -> string)
    requires forall j :: 0 <= j < |fixtures| ==> !IsArrayIndex(date(fixtures[j]))
    ensures DateEntries(fixtures, date) == GroupBy(fixtures, date)
    ensures OrderedByFirstOccurrence(fixtures, date, KeysOf(DateEntries(fixtures, date)))
  {
    var groups := GroupBy(fixtures, date);
    var ks := KeysOf(groups);
    var named := (k: string) => !IsArrayIndex(k);
    OccurringKeysShare(fixtures, date, ks, named);
    forall i | 0 <= i < |groups|
      ensures !IsArrayIndex(groups[i].key)
    {
      assert named(ks[i]);
    }
    NamedGroupsKeepOrder(groups);
    assert DateEntries(fixtures, date) == groups;
  }
}
