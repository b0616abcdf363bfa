/** The "Bandwagons" card (src/components/command-center/BandwagonsCard.tsx):
    players by net transfers, most first, falling back to transfers in when
    the net figure is missing. */
module BandwagonsCard {
  import opened Common
  import opened Sorting
  import opened Text
  import opened RankedList

  /** `transfersBalance` is `None` when the backend sends null or omits it. */
  datatype BandwagonPlayer = BandwagonPlayer(playerId: int, playerName: string, team: string,
                                             transfersIn: int, transfersOut: int,
                                             transfersBalance: Option<int>)

  /** `transfers_balance ?? transfers_in`: a balance of 0 is kept. */
  function SortKey(p: BandwagonPlayer): (k: int)
    ensures p.transfersBalance.Some? ==> k == p.transfersBalance.value
    ensures p.transfersBalance.None? ==> k == p.transfersIn
  {
    p.transfersBalance.GetOr(p.transfersIn)
  }

  /** The comparator `keyB - keyA`, as "a may come before b". */
  function BandwagonLe(a: BandwagonPlayer, b: BandwagonPlayer): bool {
    SortKey(b) - SortKey(a) <= 0
  }

  lemma BandwagonLeIsPreorder()
    ensures TotalPreorder(BandwagonLe)
  {
  }

  /** The card's order: a sorted copy of the fetched list. */
  function BandwagonOrder(data: seq<BandwagonPlayer>): (r: seq<BandwagonPlayer>)
    ensures |r| == |data|
    ensures multiset(r) == multiset(data)
    ensures forall i, j :: 0 <= i < j < |r| ==> SortKey(r[i]) >= SortKey(r[j])
  {
    BandwagonLeIsPreorder();
    Sort(data, BandwagonLe)
  }

  /** Players with equal keys keep their fetched order. */
  lemma BandwagonOrderStable(data: seq<BandwagonPlayer>, key: int)
    ensures Filter(BandwagonOrder(data), (p: BandwagonPlayer) => SortKey(p) == key)
         == Filter(data, (p: BandwagonPlayer) => SortKey(p) == key)
  {
    BandwagonLeIsPreorder();
    var e := BandwagonPlayer(0, "", "", key, 0, None);
    SortStable(data, BandwagonLe, e);
    var same := (p: BandwagonPlayer) => SortKey(p) == key;
    assert forall p: BandwagonPlayer :: EquivTo(BandwagonLe, e)(p) == same(p);
    FilterSameMeaning(BandwagonOrder(data), EquivTo(BandwagonLe, e), same);
    FilterSameMeaning(data, EquivTo(BandwagonLe, e), same);
  }

  /** The "net" figure: a "+" before a positive balance, the plain number
      otherwise, and nothing at all for a missing balance. */
  function NetLabel(balance: Option<int>): (s: string)
    ensures balance.None? <==> s == ""
    ensures balance.Some? ==> |s| >= 1 && (s[0] == '+' <==> balance.value > 0)
  {
    match balance
    case None => ""
    case Some(b) => Signed(b)
  }

  /** The label reads back as the balance it shows. */
  lemma NetLabelReadsBack(b: int)
    ensures ParseSigned(NetLabel(Some(b))) == Some(b)
  {
    SignedRoundTrip(b);
  }

  /** The card's content. */
  function BandwagonView(fetch: Fetch<BandwagonPlayer>): (v: CardView<BandwagonPlayer>)
    ensures fetch.FetchFailed? && fetch.message != Some("") ==> v == ErrorView(fetch.message.GetOr("Failed to load bandwagons data"))
    ensures v == EmptyView <==> fetch == FetchFailed(Some("")) || (fetch.Fetched? && |fetch.data| == 0)
    ensures fetch.Fetched? && |fetch.data| > 0 ==>
      && v.ListView? && |v.rows| == |fetch.data|
      && (forall i :: 0 <= i < |v.rows| ==> v.rows[i].rank == i + 1)
      && (forall i :: 0 <= i < |v.rows| ==> v.rows[i].item == BandwagonOrder(fetch.data)[i])
      && (forall i, j :: 0 <= i < j < |v.rows| ==> SortKey(v.rows[i].item) >= SortKey(v.rows[j].item))
      && multiset(Items(v.rows)) == multiset(fetch.data)
  {
    var v := View(fetch, "Failed to load bandwagons data", BandwagonOrder);
    if v.ListView? then
      assert Items(v.rows) == BandwagonOrder(fetch.data);
      v
    else v
  }
}
