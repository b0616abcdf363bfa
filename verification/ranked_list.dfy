/** What the two ranking cards share: the outcome of the fetch, the view it
    turns into (an error, the "No data available" message, or the list),
    and the 1-based rank shown beside each entry. */
module RankedList {
  import opened Common

  /** The fetch outcome; a failure carries the error's message when the
      thrown value was an `Error`. */
  datatype Fetch<T> = Fetched(data: seq<T>) | FetchFailed(message: Option<string>)

  datatype RankedRow<T> = RankedRow(rank: nat, item: T)

  datatype CardView<T> =
    | ErrorView(message: string)
    | EmptyView
    | ListView(rows: seq<RankedRow<T>>)

  /** Each entry with its position counted from 1. */
  function Ranked<T>(s: seq<T>): (r: seq<RankedRow<T>>)
    ensures |r| == |s|
    ensures forall i :: 0 <= i < |r| ==> r[i].item == s[i]
  {
    seq(|s|, i requires 0 <= i < |s| => RankedRow(i + 1, s[i]))
  }

  /** The entries of the rows, without their ranks. */
  function Items<T>(rows: seq<RankedRow<T>>): (s: seq<T>)
    ensures |s| == |rows|
    ensures forall i :: 0 <= i < |s| ==> s[i] == rows[i].item
  {
    seq(|rows|, i requires 0 <= i < |rows| => rows[i].item)
  }

  /** The ranks run 1, 2, ..., n without gaps or repeats. */
  lemma RanksConsecutive<T>(s: seq<T>)
    ensures |s| > 0 ==> Ranked(s)[0].rank == 1
    ensures forall i :: 0 <= i < |s| - 1 ==> Ranked(s)[i + 1].rank == Ranked(s)[i].rank + 1
    ensures forall i, j :: 0 <= i < j < |s| ==> Ranked(s)[i].rank < Ranked(s)[j].rank
  {
  }

  /** The card once loading is over: the error message (or `fallback` when
      the failure had none) if it is not empty, the empty message, or the ranked list of
      `order(data)`, `order` being the card's sort (which keeps the length,
      so testing the fetched list for emptiness is testing the sorted one). */
  function View<T>(fetch: Fetch<T>, fallback: string, order: seq<T> -> seq<T>): (v: CardView<T>)
    ensures fetch.FetchFailed? && fetch.message.GetOr(fallback) != "" ==>
              v == ErrorView(fetch.message.GetOr(fallback))
    ensures v == EmptyView <==>
              (fetch.FetchFailed? && fetch.message.GetOr(fallback) == "") ||
              (fetch.Fetched? && |fetch.data| == 0)
    ensures fetch.Fetched? && |fetch.data| > 0 ==>
      v.ListView? && |v.rows| == |order(fetch.data)| &&
      forall i :: 0 <= i < |v.rows| ==> v.rows[i] == RankedRow(i + 1, order(fetch.data)[i])
  {
    match fetch
    case FetchFailed(m) =>
      // An empty message is falsy: the card falls through to the list, which
      // the failed load left empty.
      var message := m.GetOr(fallback);
      if message != "" then ErrorView(message) else EmptyView
    case Fetched(data) => if |data| == 0 then EmptyView else ListView(Ranked(order(data)))
  }
}
