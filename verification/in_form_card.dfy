/** The "In Form (Last 4)" card (src/components/command-center/InFormCard.tsx):
    players by points over the last four gameweeks, most first, ties broken
    by minutes played, most first. */
module InFormCard {
  import opened Common
  import opened Sorting
  import opened RankedList

  datatype FormPlayer = FormPlayer(playerId: int, playerName: string, team: string,
                                   last4Points: int, last4Minutes: int)

  /** The comparator `b.points - a.points`, or `b.minutes - a.minutes` on
      equal points, as "a may come before b". */
  function FormLe(a: FormPlayer, b: FormPlayer): bool {
    var cmp := if b.last4Points != a.last4Points then b.last4Points - a.last4Points
               else b.last4Minutes - a.last4Minutes;
    cmp <= 0
  }

  lemma FormLeIsPreorder()
    ensures TotalPreorder(FormLe)
  {
  }

  /** The card's order: a sorted copy of the fetched list. */
  function FormOrder(data: seq<FormPlayer>): (r: seq<FormPlayer>)
    ensures |r| == |data|
    ensures multiset(r) == multiset(data)
    ensures forall i, j :: 0 <= i < j < |r| ==> r[i].last4Points >= r[j].last4Points
    ensures forall i, j :: 0 <= i < j < |r| && r[i].last4Points == r[j].last4Points ==>
              r[i].last4Minutes >= r[j].last4Minutes
  {
    FormLeIsPreorder();
    Sort(data, FormLe)
  }

  /** Players equal in both points and minutes keep their fetched order. */
  lemma FormOrderStable(data: seq<FormPlayer>, points: int, minutes: int)
    ensures Filter(FormOrder(data), (p: FormPlayer) => p.last4Points == points && p.last4Minutes == minutes)
         == Filter(data, (p: FormPlayer) => p.last4Points == points && p.last4Minutes == minutes)
  {
    FormLeIsPreorder();
    var e := FormPlayer(0, "", "", points, minutes);
    SortStable(data, FormLe, e);
    var same := (p: FormPlayer) => p.last4Points == points && p.last4Minutes == minutes;
    assert forall p: FormPlayer :: EquivTo(FormLe, e)(p) == same(p);
    FilterSameMeaning(FormOrder(data), EquivTo(FormLe, e), same);
    FilterSameMeaning(data, EquivTo(FormLe, e), same);
  }

  /** The card's content. */
  function FormView(fetch: Fetch<FormPlayer>): (v: CardView<FormPlayer>)
    ensures fetch.FetchFailed? && fetch.message != Some("") ==> v == ErrorView(fetch.message.GetOr("Failed to load form data"))
    ensures v == EmptyView <==> fetch == FetchFailed(Some("")) || (fetch.Fetched? && |fetch.data| == 0)
    ensures fetch.Fetched? && |fetch.data| > 0 ==>
      && v.ListView? && |v.rows| == |fetch.data|
      && (forall i :: 0 <= i < |v.rows| ==> v.rows[i].rank == i + 1)
      && (forall i :: 0 <= i < |v.rows| ==> v.rows[i].item == FormOrder(fetch.data)[i])
      && (forall i, j :: 0 <= i < j < |v.rows| ==> v.rows[i].item.last4Points >= v.rows[j].item.last4Points)
      && (forall i, j | 0 <= i < j < |v.rows| && v.rows[i].item.last4Points == v.rows[j].item.last4Points ::
            v.rows[i].item.last4Minutes >= v.rows[j].item.last4Minutes)
      && multiset(Items(v.rows)) == multiset(fetch.data)
  {
    var v := View(fetch, "Failed to load form data", FormOrder);
    if v.ListView? then
      assert Items(v.rows) == FormOrder(fetch.data);
      v
    else v
  }
}
