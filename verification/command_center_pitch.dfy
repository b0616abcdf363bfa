/** The planning page's pitch (src/components/command-center/CommandCenterPitch.tsx):
    goalkeeper, defender, midfielder and forward rows of starters, then the
    bench. Only chips on the pitch can be clicked to choose a captain. */
module CommandCenterPitch {
  import opened Common
  import opened Squad
  import opened PitchLayout

  function PositionName(p: Position): string {
    match p
    case GK => "GK"
    case DEF => "DEF"
    case MID => "MID"
    case FWD => "FWD"
  }

  function PositionOf(p: EnhancedPlayer): string { PositionName(p.position) }

  /** Rows in drawing order. */
  const PitchRows: seq<string> := ["GK", "DEF", "MID", "FWD"]

  /** The first three characters of the name (`slice(0, 3)`). */
  function ChipText(name: string): (t: string)
    ensures |t| == if |name| < 3 then |name| else 3
    ensures t <= name
  {
    if |name| < 3 then name else name[..3]
  }

  /** What a chip shows and whether it reacts to a click. */
  datatype Chip = Chip(playerId: int, text: string, captainBadge: bool, viceBadge: bool,
                       injuryBadge: bool, selectable: bool)

  function PlayerChip(p: EnhancedPlayer, selectable: bool): (c: Chip)
    ensures c.playerId == p.id && c.selectable == selectable
    ensures c.injuryBadge <==> p.injuryStatus != "Available"
    ensures c.captainBadge == p.isCaptain && c.viceBadge == p.isViceCaptain
    ensures c.text == ChipText(p.name)
  {
    Chip(p.id, ChipText(p.name), p.isCaptain, p.isViceCaptain, p.injuryStatus != "Available", selectable)
  }

  /** A click hands the player's id to the captain callback, when the chip
      has one. */
  function Click(c: Chip): (r: Option<int>)
    ensures r.Some? <==> c.selectable
    ensures r.Some? ==> r.value == c.playerId
  {
    if c.selectable then Some(c.playerId) else None
  }

  datatype PitchScreen = PitchScreen(rows: seq<seq<Chip>>, bench: seq<Chip>)

  function ChipsOf(players: seq<EnhancedPlayer>, selectable: bool): (cs: seq<Chip>)
    ensures |cs| == |players|
    ensures forall j :: 0 <= j < |cs| ==> cs[j] == PlayerChip(players[j], selectable)
  {
    seq(|players|, j requires 0 <= j < |players| => PlayerChip(players[j], selectable))
  }

  function Render(squad: seq<EnhancedPlayer>): (s: PitchScreen)
    ensures |s.rows| == 4
    ensures forall i, j :: 0 <= i < 4 && 0 <= j < |s.rows[i]| ==> s.rows[i][j].selectable
    ensures forall j :: 0 <= j < |s.bench| ==> !s.bench[j].selectable
    ensures forall i :: 0 <= i < 4 ==>
              s.rows[i] == ChipsOf(Arrange(squad, IsStarter, IsBenched, PositionOf, PitchRows).rows[i], true)
    ensures s.bench == ChipsOf(Arrange(squad, IsStarter, IsBenched, PositionOf, PitchRows).bench, false)
  {
    var f := Arrange(squad, IsStarter, IsBenched, PositionOf, PitchRows);
    PitchScreen(seq(4, i requires 0 <= i < 4 => ChipsOf(f.rows[i], true)), ChipsOf(f.bench, false))
  }

  /** Clicking can only ever captain a starter: every chip that answers a
      click belongs to a player who is in the squad and not on the bench. */
  lemma ClickOnlyOnStarters(squad: seq<EnhancedPlayer>, c: Chip)
    requires c in Render(squad).bench || exists i :: 0 <= i < 4 && c in Render(squad).rows[i]
    ensures Click(c).Some? ==> exists p :: p in squad && !p.isBench && p.id == Click(c).value
  {
    var f := Arrange(squad, IsStarter, IsBenched, PositionOf, PitchRows);
    if c in Render(squad).bench {
      assert !c.selectable;
    } else {
      var i :| 0 <= i < 4 && c in Render(squad).rows[i];
      var j :| 0 <= j < |Render(squad).rows[i]| && Render(squad).rows[i][j] == c;
      assert f.rows[i][j] in f.rows[i];
    }
  }

  /** With the four-valued position, every starter is drawn in exactly one
      row, and the rows together hold exactly the starters. */
  lemma EveryStarterDrawnOnce(squad: seq<EnhancedPlayer>, x: EnhancedPlayer)
    requires x in squad && !x.isBench
    ensures exists k :: 0 <= k < 4 && PitchRows[k] == PositionName(x.position) &&
                       OnlyInRow(Arrange(squad, IsStarter, IsBenched, PositionOf, PitchRows).rows, x, k)
    ensures SumBy(Arrange(squad, IsStarter, IsBenched, PositionOf, PitchRows).rows, RowSize)
         == |Filter(squad, IsStarter)|
  {
    RowsAreDistinct();
    forall i | 0 <= i < |squad| && IsStarter(squad[i])
      ensures PositionOf(squad[i]) in PitchRows
    {
      NamedPositionListed(squad[i].position);
    }
    RowOfStarter(squad, IsStarter, IsBenched, PositionOf, PitchRows, x);
    NamedPositionListed(x.position);
    RowsHoldEveryStarter(squad, IsStarter, IsBenched, PositionOf, PitchRows);
  }

  lemma RowsAreDistinct()
    ensures Distinct(PitchRows)
  {
  }

  /** Every position has a row of its own. */
  lemma NamedPositionListed(p: Position)
    ensures PositionName(p) in PitchRows
  {
  }

  /** The bench flag splits the squad exactly. */
  lemma SplitIsExact(squad: seq<EnhancedPlayer>)
    ensures |Filter(squad, IsStarter)| + |Filter(squad, IsBenched)| == |squad|
    ensures multiset(Filter(squad, IsStarter)) + multiset(Filter(squad, IsBenched)) == multiset(squad)
  {
    FilterPartition(squad, IsStarter, IsBenched);
  }
}
