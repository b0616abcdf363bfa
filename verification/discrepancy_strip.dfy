/** The gameweek page's statistics strip (src/components/gw-overview/StatsStrip.tsx):
    the API total and the recomputed total side by side, and a discrepancy
    tile and alert that appear only when the two differ. */
module DiscrepancyStrip {
  import opened Common
  import opened Text
  import opened FplData

  /** One tile: caption, value text, optional subtitle, highlighted frame. */
  datatype Item = Item(caption: string, value: string, subtitle: Option<string>, highlight: bool)

  /** The strip: the two totals, the discrepancy tile if any, the other
      figures, and the alert's signed figure if the alert is shown. */
  datatype StripView = StripView(totals: seq<Item>, discrepancy: Option<Item>, figures: seq<Item>,
                                 alert: Option<string>)
  {
    /** The tiles in rendering order. */
    function Items(): seq<Item> {
      totals + (match discrepancy case Some(d) => [d] case None => []) + figures
    }
  }

  predicate HasDiscrepancy(stats: GwStats) {
    stats.pointsDiscrepancy != 0
  }

  /** "-N pts" under the transfers count, only for a positive cost. */
  function TransferSubtitle(cost: int): (r: Option<string>)
    ensures r.Some? <==> cost > 0
    ensures r.Some? ==> |r.value| >= 4 && r.value[|r.value| - 4..] == " pts" &&
                        ParseSigned(r.value[..|r.value| - 4]) == Some(-cost)
  {
    if cost > 0 then
      var s := "-" + NatToString(cost) + " pts";
      assert s[..|s| - 4] == Signed(-cost);
      SignedRoundTrip(-cost);
      Some(s)
    else None
  }

  /** The tiles after the totals: the season figures, money, transfers
      and bench points. */
  function Figures(stats: GwStats): (r: seq<Item>)
    ensures |r| == 7
    ensures r[0] == Item("Total Points", IntToString(stats.totalPoints), None, false)
    ensures r[1] == Item("GW Rank", IntToString(stats.gwRank), None, false)
    ensures r[2] == Item("Overall Rank", IntToString(stats.overallRank), None, false)
    ensures r[3] == Item("Team Value", Money(stats.teamValue), None, false)
    ensures r[4] == Item("Bank", Money(stats.bank), None, false)
    ensures r[5] == Item("Transfers", IntToString(stats.transfers), TransferSubtitle(stats.transferCost), false)
    ensures r[6] == Item("Bench Points", IntToString(stats.benchPoints), None, false)
  {
    [Item("Total Points", IntToString(stats.totalPoints), None, false),
     Item("GW Rank", IntToString(stats.gwRank), None, false),
     Item("Overall Rank", IntToString(stats.overallRank), None, false),
     Item("Team Value", Money(stats.teamValue), None, false),
     Item("Bank", Money(stats.bank), None, false),
     Item("Transfers", IntToString(stats.transfers), TransferSubtitle(stats.transferCost), false),
     Item("Bench Points", IntToString(stats.benchPoints), None, false)]
  }

  /** The signed figure shown in the discrepancy tile and alert, if any. */
  function DiscrepancyFigure(stats: GwStats): (r: Option<string>)
    ensures r.Some? <==> HasDiscrepancy(stats)
    ensures r.Some? ==> ParseSigned(r.value) == Some(stats.pointsDiscrepancy)
    ensures r.Some? ==> (r.value[0] == '+' <==> stats.pointsDiscrepancy > 0)
  {
    if HasDiscrepancy(stats) then
      SignedRoundTrip(stats.pointsDiscrepancy);
      Some(Signed(stats.pointsDiscrepancy))
    else None
  }

  function Strip(stats: GwStats): (v: StripView)
    ensures v.totals == [Item("API GW Points", IntToString(stats.gwPoints), None, false),
                         Item("Manual GW Points", IntToString(stats.manualPoints), None, HasDiscrepancy(stats))]
    ensures v.discrepancy.Some? <==> HasDiscrepancy(stats)
    ensures v.alert.Some? <==> HasDiscrepancy(stats)
    ensures v.alert.Some? ==> ParseSigned(v.alert.value) == Some(stats.pointsDiscrepancy)
    ensures v.alert.Some? ==> v.discrepancy == Some(Item("Discrepancy", v.alert.value, None, true))
    ensures v.figures == Figures(stats)
  {
    var figure := DiscrepancyFigure(stats);
    StripView(
      [Item("API GW Points", IntToString(stats.gwPoints), None, false),
       Item("Manual GW Points", IntToString(stats.manualPoints), None, HasDiscrepancy(stats))],
      match figure case Some(f) => Some(Item("Discrepancy", f, None, true)) case None => None,
      Figures(stats),
      figure)
  }

  /** The discrepancy tile is the third tile exactly when it is shown, and
      there are ten tiles then and nine otherwise. */
  lemma TileCount(stats: GwStats)
    ensures |Strip(stats).Items()| == if HasDiscrepancy(stats) then 10 else 9
    ensures HasDiscrepancy(stats) ==> Strip(stats).Items()[2].caption == "Discrepancy"
  {
  }

  /** On the hook's statistics, the alert appears exactly when the
      recomputed total differs from the API total, and shows the recomputed
      total minus the API total. */
  lemma AlertShowsReconciliation(picks: PicksResponse, players: seq<Player>)
    ensures var stats := Reconcile(picks, players);
      && (Strip(stats).alert.Some? <==> stats.manualPoints != stats.gwPoints)
      && (Strip(stats).alert.Some? ==>
            ParseSigned(Strip(stats).alert.value) == Some(stats.manualPoints - picks.entryHistory.points))
  {
  }
}
