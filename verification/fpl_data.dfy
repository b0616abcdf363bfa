/** The historical gameweek view of one manager's team: joining the picks
    with the player catalogue and live scores into one row per pick,
    recomputing the gameweek total from those rows, and reporting how far
    that total is from the total the API reports (src/hooks/useFplData.ts). */
module FplData {
  import opened Common
  import opened Lookup

  datatype BootstrapElement = BootstrapElement(id: int, webName: string, team: int, elementType: int)
  datatype BootstrapTeam = BootstrapTeam(id: int, shortName: string)
  datatype ElementType = ElementType(id: int, singularNameShort: string)
  datatype GameweekEvent = GameweekEvent(id: int, deadlineTime: string, finished: bool,
                                         isCurrent: bool, isNext: bool)
  datatype Bootstrap = Bootstrap(elements: seq<BootstrapElement>, teams: seq<BootstrapTeam>,
                                 elementTypes: seq<ElementType>, events: seq<GameweekEvent>)

  datatype Pick = Pick(element: int, position: int, multiplier: int,
                       isCaptain: bool, isViceCaptain: bool)
  /** Team value and bank are integer tenths of a million, as the API sends them. */
  datatype EntryHistory = EntryHistory(points: int, totalPoints: int, rank: int, overallRank: int,
                                       bank: int, value: int, eventTransfers: int,
                                       eventTransfersCost: int, pointsOnBench: int)
  datatype PicksResponse = PicksResponse(activeChip: Option<string>, entryHistory: EntryHistory,
                                         picks: seq<Pick>)
  /** A live element, reduced to the one statistic the view reads. */
  datatype LiveElement = LiveElement(id: int, totalPoints: int)

  /** One row of the squad: `points` has the multiplier applied,
      `actualPoints` is the raw live score. */
  datatype Player = Player(id: int, name: string, position: string, team: string, points: int,
                           isCaptain: bool, isViceCaptain: bool, multiplier: int,
                           isBench: bool, actualPoints: int)

  datatype GwInfo = GwInfo(gameweek: int, deadline: string, isFinished: bool)
  datatype GwStats = GwStats(gwPoints: int, manualPoints: int, totalPoints: int, gwRank: int,
                             overallRank: int, teamValue: int, bank: int, transfers: int,
                             transferCost: int, benchPoints: int, pointsDiscrepancy: int)

  /** What the hook ends up holding: nothing (no team id), an error
      message, or the loaded gameweek. */
  datatype LoadOutcome =
    | Idle
    | Failed(message: string)
    | Loaded(teamName: string, info: GwInfo, stats: GwStats, players: seq<Player>)

  function ElementId(e: BootstrapElement): int { e.id }
  function TeamId(t: BootstrapTeam): int { t.id }
  function ElementTypeId(et: ElementType): int { et.id }
  function LiveId(l: LiveElement): int { l.id }

  /** Bench slots are 12 to 15. */
  predicate IsBenchSlot(position: int) {
    position > 11
  }

  /** The row for one pick, given what the lookups found. */
  function PlayerRow(pick: Pick, element: Option<BootstrapElement>, team: Option<BootstrapTeam>,
                     position: Option<ElementType>, live: Option<LiveElement>): Player
  {
    var actual := if live.Some? then live.value.totalPoints else 0;
    Player(
      id := pick.element,
      name := if element.Some? then element.value.webName else "Unknown",
      position := if position.Some? then position.value.singularNameShort else "UNK",
      team := if team.Some? then team.value.shortName else "UNK",
      points := actual * pick.multiplier,
      isCaptain := pick.isCaptain,
      isViceCaptain := pick.isViceCaptain,
      multiplier := pick.multiplier,
      isBench := IsBenchSlot(pick.position),
      actualPoints := actual)
  }

  /** The team and element type of a catalogue element, looked up only when
      the element itself was found. */
  function TeamOf(teams: map<int, BootstrapTeam>, element: Option<BootstrapElement>): Option<BootstrapTeam> {
    if element.Some? then Get(teams, element.value.team) else None
  }

  function TypeOf(types: map<int, ElementType>, element: Option<BootstrapElement>): Option<ElementType> {
    if element.Some? then Get(types, element.value.elementType) else None
  }

  /** `buildPlayerList`: one row per pick, in pick order. The lookups go
      through id-keyed maps; the contract states each row in terms of a
      backwards scan of the lists, so a duplicated id resolves to its last
      entry. */
  function BuildPlayerList(picks: PicksResponse, bootstrap: Bootstrap, live: seq<LiveElement>): (r: seq<Player>)
    ensures |r| == |picks.picks|
    ensures forall i :: 0 <= i < |r| ==>
      var pick := picks.picks[i];
      var element := LastWithKey(bootstrap.elements, ElementId, pick.element);
      r[i] == PlayerRow(pick, element,
                        if element.Some? then LastWithKey(bootstrap.teams, TeamId, element.value.team) else None,
                        if element.Some? then LastWithKey(bootstrap.elementTypes, ElementTypeId, element.value.elementType) else None,
                        LastWithKey(live, LiveId, pick.element))
    ensures forall i :: 0 <= i < |r| ==>
      && r[i].id == picks.picks[i].element
      && r[i].multiplier == picks.picks[i].multiplier
      && (r[i].isBench <==> picks.picks[i].position > 11)
      && r[i].points == r[i].actualPoints * r[i].multiplier
  {
    var elements := IndexBy(bootstrap.elements, ElementId);
    var teams := IndexBy(bootstrap.teams, TeamId);
    var types := IndexBy(bootstrap.elementTypes, ElementTypeId);
    var liveMap := IndexBy(live, LiveId);
    IndexByAgrees(bootstrap.elements, ElementId);
    IndexByAgrees(bootstrap.teams, TeamId);
    IndexByAgrees(bootstrap.elementTypes, ElementTypeId);
    IndexByAgrees(live, LiveId);
    seq(|picks.picks|, i requires 0 <= i < |picks.picks| =>
      var pick := picks.picks[i];
      var element := Get(elements, pick.element);
      PlayerRow(pick, element, TeamOf(teams, element), TypeOf(types, element), Get(liveMap, pick.element)))
  }

  function IsStarter(p: Player): bool { !p.isBench }
  function IsBenched(p: Player): bool { p.isBench }
  function StarterPoints(p: Player): int { p.actualPoints * p.multiplier }
  function RawPoints(p: Player): int { p.actualPoints }

  /** `calculateManualGWPoints`: starters' raw points times their
      multiplier, plus, under bench boost, the bench players' raw points. */
  function ManualPoints(players: seq<Player>, benchBoost: bool): int {
    SumBy(Filter(players, IsStarter), StarterPoints)
      + (if benchBoost then SumBy(Filter(players, IsBenched), RawPoints) else 0)
  }

  /** What one player adds to the manual total. */
  function Contribution(benchBoost: bool): Player -> int {
    (p: Player) => if !p.isBench then p.actualPoints * p.multiplier
         else if benchBoost then p.actualPoints
         else 0
  }

  /** The manual total is the sum of per-player contributions: a starter
      counts its points times its multiplier, a bench player counts its raw
      points under bench boost and nothing otherwise. */
  lemma ManualPointsByPlayer(players: seq<Player>, benchBoost: bool)
    ensures ManualPoints(players, benchBoost) == SumBy(players, Contribution(benchBoost))
  {
    var starters: Player -> int := p => if IsStarter(p) then StarterPoints(p) else 0;
    var bench: Player -> int := p => if IsBenched(p) then RawPoints(p) else 0;
    var none: Player -> int := p => 0;
    SumByFilter(players, IsStarter, StarterPoints, starters);
    SumByFilter(players, IsBenched, RawPoints, bench);
    if benchBoost {
      SumByAdd(players, starters, bench, Contribution(benchBoost));
    } else {
      SumByAdd(players, starters, none, Contribution(benchBoost));
      SumByZero(players, none);
    }
  }

  lemma {:induction false} SumByZero<T>(s: seq<T>, f: T -> int)
    requires forall x :: f(x) == 0
    ensures SumBy(s, f) == 0
  {
    if |s| > 0 {
      SumByZero(s[1..], f);
    }
  }

  /** Without bench boost the bench never counts: changing a bench player's
      score leaves the manual total unchanged. */
  lemma BenchIgnoredWithoutBoost(players: seq<Player>, i: nat, pts: int)
    requires i < |players| && players[i].isBench
    ensures ManualPoints(players[i := players[i].(actualPoints := pts)], false)
         == ManualPoints(players, false)
  {
    var q := players[i := players[i].(actualPoints := pts)];
    ManualPointsByPlayer(players, false);
    ManualPointsByPlayer(q, false);
    SumByPointwise(players, q, Contribution(false));
  }

  /** Two sequences whose elements agree pointwise under `f` have the same sum. */
  lemma {:induction false} SumByPointwise<T>(s: seq<T>, t: seq<T>, f: T -> int)
    requires |s| == |t|
    requires forall i :: 0 <= i < |s| ==> f(s[i]) == f(t[i])
    ensures SumBy(s, f) == SumBy(t, f)
  {
    if |s| > 0 {
      SumByPointwise(s[1..], t[1..], f);
    }
  }

  /** On rows built from picks, a starter contributes exactly its displayed
      `points`. */
  lemma ManualPointsOfRows(picks: PicksResponse, bootstrap: Bootstrap, live: seq<LiveElement>)
    ensures var rows := BuildPlayerList(picks, bootstrap, live);
      ManualPoints(rows, false) == SumBy(rows, (p: Player) => if p.isBench then 0 else p.points)
  {
    var rows := BuildPlayerList(picks, bootstrap, live);
    ManualPointsByPlayer(rows, false);
    SumByAgree(rows, Contribution(false), (p: Player) => if p.isBench then 0 else p.points);
  }

  /** Two summands that agree on every element of `s` give the same sum. */
  lemma {:induction false} SumByAgree<T>(s: seq<T>, f: T -> int, g: T -> int)
    requires forall i :: 0 <= i < |s| ==> f(s[i]) == g(s[i])
    ensures SumBy(s, f) == SumBy(s, g)
  {
    if |s| > 0 {
      SumByAgree(s[1..], f, g);
    }
  }

  /** The event the hook treats as current: the first one flagged `is_current`. */
  function CurrentEvent(events: seq<GameweekEvent>): (r: Option<GameweekEvent>)
    ensures r.None? <==> forall i :: 0 <= i < |events| ==> !events[i].isCurrent
    ensures r.Some? ==> r.value.isCurrent && r.value in events
    ensures r.Some? ==> exists i :: 0 <= i < |events| && events[i] == r.value &&
                                   forall j :: 0 <= j < i ==> !events[j].isCurrent
  {
    Find(events, (e: GameweekEvent) => e.isCurrent)
  }

  /** The statistics the hook stores: every API figure passed through, plus
      the recomputed total and its signed difference from the API's. */
  function Reconcile(picks: PicksResponse, players: seq<Player>): (s: GwStats)
    ensures s.gwPoints == picks.entryHistory.points
    ensures s.manualPoints == ManualPoints(players, picks.activeChip == Some("bboost"))
    ensures s.manualPoints == s.gwPoints + s.pointsDiscrepancy
  {
    var h := picks.entryHistory;
    var manual := ManualPoints(players, picks.activeChip == Some("bboost"));
    GwStats(
      gwPoints := h.points,
      manualPoints := manual,
      totalPoints := h.totalPoints,
      gwRank := h.rank,
      overallRank := h.overallRank,
      teamValue := h.value,
      bank := h.bank,
      transfers := h.eventTransfers,
      transferCost := h.eventTransfersCost,
      benchPoints := h.pointsOnBench,
      pointsDiscrepancy := manual - h.points)
  }

  /** The hook's data flow once the responses are in. `teamId` 0 or absent
      means nothing is loaded; `picks` and `live` are the responses for the
      current gameweek. */
  function LoadGameweek(teamId: Option<int>, bootstrap: Bootstrap, entryName: string,
                        picks: PicksResponse, live: seq<LiveElement>): (r: LoadOutcome)
    ensures teamId.None? || teamId == Some(0) ==> r == Idle
    ensures r.Failed? <==> teamId.Some? && teamId.value != 0 &&
                           forall i :: 0 <= i < |bootstrap.events| ==> !bootstrap.events[i].isCurrent
    ensures r.Failed? ==> r.message == "No current gameweek found"
    ensures r.Loaded? ==>
      && r.teamName == entryName
      && r.players == BuildPlayerList(picks, bootstrap, live)
      && r.stats == Reconcile(picks, r.players)
      && r.stats.gwPoints == picks.entryHistory.points
      && r.stats.manualPoints == ManualPoints(r.players, picks.activeChip == Some("bboost"))
      && r.stats.pointsDiscrepancy == r.stats.manualPoints - r.stats.gwPoints
      && exists i :: 0 <= i < |bootstrap.events| && bootstrap.events[i].isCurrent &&
                     r.info == GwInfo(bootstrap.events[i].id, bootstrap.events[i].deadlineTime,
                                      bootstrap.events[i].finished) &&
                     forall j :: 0 <= j < i ==> !bootstrap.events[j].isCurrent
  {
    if teamId.None? || teamId.value == 0 then Idle
    else match CurrentEvent(bootstrap.events)
      case None => Failed("No current gameweek found")
      case Some(gw) =>
        var players := BuildPlayerList(picks, bootstrap, live);
        Loaded(entryName, GwInfo(gw.id, gw.deadlineTime, gw.finished), Reconcile(picks, players), players)
  }
}
