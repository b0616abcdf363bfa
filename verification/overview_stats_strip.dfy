/** The overview page's statistics strip (src/components/GWOverview/StatsStrip.tsx):
    a fixed sequence of tiles with an optional "Manual Points" tile, and a
    warning banner about the recomputed total. The tile and the banner test
    the optional `manualPoints` differently. */
module OverviewStatsStrip {
  import opened Common
  import opened Text

  /** The statistics this strip reads; money is held in tenths of a million. */
  datatype OverviewStats = OverviewStats(points: int, rank: int, overallRank: int, pointsOnBench: int,
                                         transfersMade: int, transfersCost: int, teamValue: int, bank: int)

  /** The optional `manualPoints` property: left out, `null`, or a number. */
  datatype ManualArg = Absent | Null | Value(n: int)

  datatype Tile = Tile(caption: string, value: string, color: string)

  /** `showManualPoints && manualPoints != null && manualPoints !== stats.points`:
      loose inequality with null rules out both null and undefined. */
  predicate ShowsManualTile(stats: OverviewStats, manual: ManualArg, show: bool) {
    show && manual.Value? && manual.n != stats.points
  }

  /** `showManualPoints && manualPoints !== null && manualPoints !== stats.points`:
      strict inequality with null lets undefined through, and undefined is
      never strictly equal to a number. */
  predicate ShowsBanner(stats: OverviewStats, manual: ManualArg, show: bool) {
    show && !manual.Null? && !(manual.Value? && manual.n == stats.points)
  }

  /** The two conditions differ in exactly one situation: the banner is
      shown without the tile when the flag is set and no value was passed. */
  lemma BannerWithoutTile(stats: OverviewStats, manual: ManualArg, show: bool)
    ensures ShowsManualTile(stats, manual, show) ==> ShowsBanner(stats, manual, show)
    ensures ShowsBanner(stats, manual, show) && !ShowsManualTile(stats, manual, show)
        <==> show && manual.Absent?
  {
  }

  /** The bracket after the transfer count: the deduction, or "0". */
  function CostText(cost: int): (s: string)
    ensures ParseSigned(s) == Some(if cost > 0 then -cost else 0)
    ensures cost > 0 <==> s[0] == '-'
  {
    // `-${cost}` for a positive cost is the signed rendering of -cost
    SignedRoundTrip(if cost > 0 then -cost else 0);
    if cost > 0 then Signed(-cost)
    else
      assert Signed(0) == "0";
      "0"
  }

  /** Transfers are shown in red exactly when they cost points. */
  function TransfersColor(cost: int): (c: string)
    ensures c == "text-red-400" <==> cost > 0
  {
    if cost > 0 then "text-red-400" else "text-slate-400"
  }

  function Tiles(stats: OverviewStats, manual: ManualArg, show: bool): (ts: seq<Tile>)
    ensures |ts| == if ShowsManualTile(stats, manual, show) then 8 else 7
    ensures ts[0] == Tile("GW Points", IntToString(stats.points), "text-emerald-400")
    ensures ShowsManualTile(stats, manual, show) ==>
              ts[1] == Tile("Manual Points", IntToString(manual.n), "text-yellow-400")
    ensures ts[|ts| - 6..] == FixedTiles(stats)
  {
    var head := [Tile("GW Points", IntToString(stats.points), "text-emerald-400")];
    var manualTile := if ShowsManualTile(stats, manual, show)
                      then [Tile("Manual Points", IntToString(manual.n), "text-yellow-400")] else [];
    head + manualTile + FixedTiles(stats)
  }

  function FixedTiles(stats: OverviewStats): (ts: seq<Tile>)
    ensures |ts| == 6
    ensures ts[0] == Tile("GW Rank", IntToString(stats.rank), "text-blue-400")
    ensures ts[1] == Tile("Overall Rank", IntToString(stats.overallRank), "text-purple-400")
    ensures ts[2] == Tile("Bench Points", IntToString(stats.pointsOnBench), "text-slate-400")
    ensures ts[3].caption == "Transfers" && ts[3].color == TransfersColor(stats.transfersCost)
    ensures ts[3].value == IntToString(stats.transfersMade) + " (" + CostText(stats.transfersCost) + ")"
    ensures ts[4] == Tile("Team Value", Money(stats.teamValue), "text-slate-300")
    ensures ts[5] == Tile("Bank", Money(stats.bank), "text-slate-300")
  {
    [Tile("GW Rank", IntToString(stats.rank), "text-blue-400"),
     Tile("Overall Rank", IntToString(stats.overallRank), "text-purple-400"),
     Tile("Bench Points", IntToString(stats.pointsOnBench), "text-slate-400"),
     Tile("Transfers", IntToString(stats.transfersMade) + " (" + CostText(stats.transfersCost) + ")",
          TransfersColor(stats.transfersCost)),
     Tile("Team Value", Money(stats.teamValue), "text-slate-300"),
     Tile("Bank", Money(stats.bank), "text-slate-300")]
  }
}
