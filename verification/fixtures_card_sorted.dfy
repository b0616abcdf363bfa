/** The gameweek-overview fixtures card (src/components/GWOverview/FixturesCard.tsx):
    fixtures grouped by their date string, the groups listed in ascending
    string order of the date (which is not chronological order for
    human-readable dates). The fixture type is left generic: only its date
    string matters here. */
module FixturesCardSorted {
  import opened Common
  import opened Sorting
  import opened Text
  import opened Grouping

  datatype FixturesView<T> = NoFixtures | Sections(sections: seq<Group<T>>)

  /** `Object.keys(grouped).sort()`: the keys in string order. */
  function SortedDates(keys: seq<string>): (r: seq<string>)
    ensures |r| == |keys|
    ensures multiset(r) == multiset(keys)
    ensures forall i, j :: 0 <= i < j < |r| ==> StrLe(r[i], r[j])
  {
    StrLeIsOrder();
    Sort(keys, StrLe)
  }

  /** One section per date, holding that date's group. */
  function SectionsOf<T>(groups: seq<Group<T>>, dates: seq<string>): (r: seq<Group<T>>)
    ensures KeysOf(r) == dates
  {
    var r := seq(|dates|, i requires 0 <= i < |dates| => Group(dates[i], ItemsAt(groups, dates[i])));
    assert KeysOf(r) == dates;
    r
  }

  /** Sections built from a grouping over a rearrangement of its keys are
      again groups of `s`, one per distinct key. */
  lemma SectionsFacts<T>(s: seq<T>, key: T -> string, groups: seq<Group<T>>, dates: seq<string>)
    requires IsGrouping(s, key, groups)
    requires multiset(dates) == multiset(KeysOf(groups))
    ensures var r := SectionsOf(groups, dates);
      && GroupsAreFilters(s, key, r)
      && Distinct(dates)
      && CoversKeys(s, key, dates)
      && KeysOccur(s, key, dates)
  {
    var r := SectionsOf(groups, dates);
    forall i | 0 <= i < |r|
      ensures r[i].items == Filter(s, HasKey(key, r[i].key))
    {
      ItemsAtIsFilter(s, key, groups, dates[i]);
    }
    DistinctPermutation(KeysOf(groups), dates);
    forall j | 0 <= j < |s|
      ensures key(s[j]) in dates
    {
      assert key(s[j]) in multiset(KeysOf(groups));
    }
    forall i | 0 <= i < |dates|
      ensures dates[i] in KeyList(s, key)
    {
      assert dates[i] in multiset(KeysOf(groups));
    }
  }

  /** The card's content: the "No fixtures available" message when there are
      no dates, otherwise one section per date, in string order, each holding
      exactly that date's fixtures in input order. */
  function DateSections<T>(fixtures: seq<T>, date: T -> string): (v: FixturesView<T>)
    ensures v.NoFixtures? <==> |fixtures| == 0
    ensures v.Sections? ==> GroupsAreFilters(fixtures, date, v.sections)
    ensures v.Sections? ==> forall i, j :: 0 <= i < j < |v.sections| ==>
      StrLe(v.sections[i].key, v.sections[j].key) && v.sections[i].key != v.sections[j].key
    ensures v.Sections? ==> CoversKeys(fixtures, date, KeysOf(v.sections))
    ensures v.Sections? ==> KeysOccur(fixtures, date, KeysOf(v.sections))
    ensures v.Sections? ==> multiset(KeysOf(v.sections)) == multiset(KeysOf(GroupBy(fixtures, date)))
  {
    var groups := GroupBy(fixtures, date);
    var dates := SortedDates(KeysOf(groups));
    GroupByEmpty(fixtures, date);
    if |dates| == 0 then NoFixtures
    else
      SectionsFacts(fixtures, date, groups, dates);
      Sections(SectionsOf(groups, dates))
  }

  /** Every fixture is shown exactly once: the section sizes add up to the
      number of fixtures. */
  lemma RowsCoverFixtures<T>(fixtures: seq<T>, date: T -> string)
    ensures var v := DateSections(fixtures, date);
      v.Sections? ==> SumBy(v.sections, GroupSize) == |fixtures|
  {
    var v := DateSections(fixtures, date);
    if v.Sections? {
      var groups := GroupBy(fixtures, date);
      GroupSumsAgree(fixtures, date, v.sections, groups);
      FlattenSize(groups);
      GroupSizesSum(fixtures, date);
    }
  }
}
