/** The squad entry the planning page works on: a player with a
    four-valued position, expected points, captaincy flags and a bench
    flag (`EnhancedPlayer`). Optional flags that are absent count as false. */
module Squad {

  datatype Position = GK | DEF | MID | FWD

  /** Expected points are kept as an integer: the page only compares them. */
  datatype EnhancedPlayer = EnhancedPlayer(
    id: int,
    name: string,
    position: Position,
    teamAbbr: string,
    price: int,
    xPts: int,
    points: int,
    minutesRisk: string,
    injuryStatus: string,
    isCaptain: bool,
    isViceCaptain: bool,
    isBench: bool,
    opponents: seq<string>)

  function HasId(id: int): EnhancedPlayer -> bool {
    (p: EnhancedPlayer) => p.id == id
  }

  function IsStarter(p: EnhancedPlayer): bool { !p.isBench }
  function IsBenched(p: EnhancedPlayer): bool { p.isBench }
  function IsCaptain(p: EnhancedPlayer): bool { p.isCaptain }
  function IsViceCaptain(p: EnhancedPlayer): bool { p.isViceCaptain }
}
