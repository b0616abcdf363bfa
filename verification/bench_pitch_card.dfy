/** The gameweek page's pitch card (src/components/gw-overview/PitchCard.tsx):
    starters and bench are told apart by the bench flag, the goalkeeper row
    matches the label "GKP", and an empty row is not drawn. */
module BenchPitchCard {
  import opened Common
  import opened FplData
  import opened PitchLayout

  predicate Starts(p: Player) { !p.isBench }
  predicate Benched(p: Player) { p.isBench }
  function PositionOf(p: Player): string { p.position }

  /** Rows in drawing order. */
  const PitchRows: seq<string> := ["FWD", "MID", "DEF", "GKP"]

  function PitchView(players: seq<Player>): (f: Formation<Player>)
    ensures |f.rows| == 4
    ensures forall i, x :: 0 <= i < 4 ==>
              (x in f.rows[i] <==> x in players && !x.isBench && x.position == PitchRows[i])
    ensures forall x :: x in f.bench <==> x in players && x.isBench
  {
    Arrange(players, Starts, Benched, PositionOf, PitchRows)
  }

  /** The bench flag splits the squad exactly: every player is a starter or
      on the bench, never both. */
  lemma SplitIsExact(players: seq<Player>)
    ensures |Filter(players, Starts)| + |PitchView(players).bench| == |players|
    ensures multiset(Filter(players, Starts)) + multiset(PitchView(players).bench) == multiset(players)
  {
    FilterPartition(players, Starts, Benched);
  }

  /** `PlayerRow`: nothing at all for an empty row. */
  function RowView(row: seq<Player>): (r: Option<seq<Player>>)
    ensures r.None? <==> |row| == 0
    ensures r.Some? ==> r.value == row
  {
    if |row| == 0 then None else Some(row)
  }

  /** Every starter labelled "GKP", "DEF", "MID" or "FWD" is drawn in exactly
      one row; any other label (such as "GK" or "UNK") is drawn in none. */
  lemma DrawnRows(players: seq<Player>, x: Player)
    requires x in players && !x.isBench
    ensures x.position in PitchRows ==>
      exists k :: 0 <= k < 4 && PitchRows[k] == x.position && OnlyInRow(PitchView(players).rows, x, k)
    ensures x.position !in PitchRows ==> InNoRow(PitchView(players).rows, x)
  {
    RowOfStarter(players, Starts, Benched, PositionOf, PitchRows, x);
  }
}
