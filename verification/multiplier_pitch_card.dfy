/** The overview page's pitch card (src/components/GWOverview/PitchCard.tsx):
    starters and bench are told apart by the pick multiplier, and the pitch
    draws forwards, midfielders, defenders and goalkeepers from the top. */
module MultiplierPitchCard {
  import opened Common
  import opened FplData
  import opened PitchLayout

  predicate Starts(p: Player) { p.multiplier > 0 }
  predicate Benched(p: Player) { p.multiplier == 0 }
  function PositionOf(p: Player): string { p.position }

  /** The `byPosition` rows in drawing order. */
  const PitchRows: seq<string> := ["FWD", "MID", "DEF", "GK"]

  /** The pitch tab: four rows of starters and the bench. */
  function PitchView(squad: seq<Player>): (f: Formation<Player>)
    ensures |f.rows| == 4
    ensures forall i, x :: 0 <= i < 4 ==>
              (x in f.rows[i] <==> x in squad && x.multiplier > 0 && x.position == PitchRows[i])
    ensures forall x :: x in f.bench <==> x in squad && x.multiplier == 0
  {
    Arrange(squad, Starts, Benched, PositionOf, PitchRows)
  }

  /** The list tab: the starting XI and the bench, each in squad order. */
  function ListView(squad: seq<Player>): (r: (seq<Player>, seq<Player>))
    ensures forall x :: x in r.0 <==> x in squad && x.multiplier > 0
    ensures forall x :: x in r.1 <==> x in squad && x.multiplier == 0
    ensures forall x :: !(x in r.0 && x in r.1)
  {
    (Filter(squad, Starts), Filter(squad, Benched))
  }

  /** With no negative multiplier, starting XI and bench together list the
      squad exactly once. */
  lemma ListViewPartitions(squad: seq<Player>)
    requires forall i :: 0 <= i < |squad| ==> squad[i].multiplier >= 0
    ensures |ListView(squad).0| + |ListView(squad).1| == |squad|
    ensures multiset(ListView(squad).0) + multiset(ListView(squad).1) == multiset(squad)
  {
    FilterPartition(squad, Starts, Benched);
  }

  /** A player with a negative multiplier is shown nowhere. */
  lemma NegativeMultiplierHidden(squad: seq<Player>, x: Player)
    requires x.multiplier < 0
    ensures x !in ListView(squad).0 && x !in ListView(squad).1
    ensures x !in PitchView(squad).bench
    ensures forall i :: 0 <= i < 4 ==> x !in PitchView(squad).rows[i]
  {
  }

  /** When every starter's label is one of the four, the rows hold the whole
      starting XI; a starter labelled otherwise (such as "GKP") is in no row. */
  lemma RowsHoldStartingEleven(squad: seq<Player>)
    requires forall i :: 0 <= i < |squad| && squad[i].multiplier > 0 ==> squad[i].position in PitchRows
    ensures SumBy(PitchView(squad).rows, RowSize) == |ListView(squad).0|
  {
    RowsHoldEveryStarter(squad, Starts, Benched, PositionOf, PitchRows);
  }
}
