/** The planning view's data (src/hooks/useCommandCenterData.ts): which
    gameweek is being planned, who each team plays in it, the draft squad
    in slot order with its catalogue details, and the fixture rows. */
module CommandCenterData {
  import opened Common
  import opened Lookup
  import opened Sorting
  import opened Text

  datatype Event = Event(id: int, finished: bool, isCurrent: bool, isNext: bool)
  datatype Element = Element(id: int, code: int, webName: string, team: int, elementType: int)
  datatype Team = Team(id: int, code: int, name: string, shortName: string)
  datatype DraftPick = DraftPick(element: int, position: int, multiplier: int, isCaptain: bool,
                                 isViceCaptain: bool, elementType: int,
                                 sellingPrice: int, purchasePrice: int)
  datatype MyTeam = MyTeam(picks: seq<DraftPick>)
  /** A fixture of the planned gameweek; a score is absent until played. */
  datatype Fixture = Fixture(teamH: int, teamA: int, teamHScore: Option<int>,
                             teamAScore: Option<int>, kickoffTime: string)

  /** A squad entry. `positionType` is the element type that the position
      label is derived from; `photoCode` is the photo code when it is set. */
  datatype SquadPlayer = SquadPlayer(id: int, name: string, positionType: int, points: int,
                                     isCaptain: bool, isViceCaptain: bool, isBench: bool,
                                     photoCode: Option<int>, teamAbbr: Option<string>,
                                     opponents: seq<string>, sellingPrice: int,
                                     purchasePrice: int, elementType: int)

  datatype FixtureRow = FixtureRow(date: string, dateIso: string,
                                   homeTeam: string, homeAbbr: string, homeColor: string,
                                   homeBadgeCode: Option<int>,
                                   awayTeam: string, awayAbbr: string, awayColor: string,
                                   awayBadgeCode: Option<int>,
                                   homeScore: int, awayScore: int)

  function ElementId(e: Element): int { e.id }
  function TeamId(t: Team): int { t.id }

  function IsNext(e: Event): bool { e.isNext }
  function IsCurrent(e: Event): bool { e.isCurrent }
  function IsFinished(e: Event): bool { e.finished }

  /** The gameweek being planned: the first `is_next` event; failing that,
      one after the first `is_current` event, or after the last finished
      event, or after gameweek 0. */
  function NextGameweek(events: seq<Event>): (gw: int)
    ensures (exists i :: 0 <= i < |events| && events[i].isNext) ==>
      exists i :: 0 <= i < |events| && events[i].isNext && gw == events[i].id &&
                  forall j :: 0 <= j < i ==> !events[j].isNext
    ensures (forall i :: 0 <= i < |events| ==> !events[i].isNext) &&
            (exists i :: 0 <= i < |events| && events[i].isCurrent) ==>
      exists i :: 0 <= i < |events| && events[i].isCurrent && gw == events[i].id + 1 &&
                  forall j :: 0 <= j < i ==> !events[j].isCurrent
    ensures (forall i :: 0 <= i < |events| ==> !events[i].isNext && !events[i].isCurrent) &&
            (exists i :: 0 <= i < |events| && events[i].finished) ==>
      exists i :: 0 <= i < |events| && events[i].finished && gw == events[i].id + 1 &&
                  forall j :: i < j < |events| ==> !events[j].finished
    ensures (forall i :: 0 <= i < |events| ==> !events[i].isNext && !events[i].isCurrent && !events[i].finished) ==>
      gw == 1
  {
    var finished := Filter(events, IsFinished);
    FilterLast(events, IsFinished);
    var current := match Find(events, IsCurrent)
                   case Some(e) => Some(e)
                   case None => if |finished| > 0 then Some(finished[|finished| - 1]) else None;
    match Find(events, IsNext)
    case Some(e) => e.id
    case None => (if current.Some? then current.value.id else 0) + 1
  }

  /** The abbreviation shown for a team id, "???" when the id is unknown. */
  function AbbrOr(teams: map<int, Team>, id: int): string {
    if id in teams then teams[id].shortName else "???"
  }

  /** A team's list in the map, empty when it has none. */
  function Entry(m: map<int, seq<string>>, t: int): seq<string> {
    if t in m then m[t] else []
  }

  /** One fixture's step: the away side goes onto the home team's list, then
      the home side onto the away team's list. */
  function Record(m: map<int, seq<string>>, f: Fixture, teams: map<int, Team>): (r: map<int, seq<string>>)
    ensures forall t :: t in r <==> t in m || Plays(f, t)
  {
    var m1 := m[f.teamH := Entry(m, f.teamH) + [AbbrOr(teams, f.teamA)]];
    m1[f.teamA := Entry(m1, f.teamA) + [AbbrOr(teams, f.teamH)]]
  }

  /** Each team's list grows by its opponent in the fixture, once per side it plays. */
  lemma RecordEntry(m: map<int, seq<string>>, f: Fixture, teams: map<int, Team>, t: int)
    ensures Entry(Record(m, f, teams), t)
         == Entry(m, t) + (if f.teamH == t then [AbbrOr(teams, f.teamA)] else [])
                        + (if f.teamA == t then [AbbrOr(teams, f.teamH)] else [])
  {
  }

  /** The opponent lists after processing `fixtures` in order. */
  function OpponentsByTeam(fixtures: seq<Fixture>, teams: map<int, Team>): map<int, seq<string>>
  {
    if |fixtures| == 0 then map[]
    else Record(OpponentsByTeam(fixtures[..|fixtures| - 1], teams), fixtures[|fixtures| - 1], teams)
  }

  /** Reference definition: the opponents of team `t`, fixture by fixture. */
  function OpponentsOf(fixtures: seq<Fixture>, teams: map<int, Team>, t: int): seq<string> {
    if |fixtures| == 0 then []
    else
      var f := fixtures[|fixtures| - 1];
      OpponentsOf(fixtures[..|fixtures| - 1], teams, t)
        + (if f.teamH == t then [AbbrOr(teams, f.teamA)] else [])
        + (if f.teamA == t then [AbbrOr(teams, f.teamH)] else [])
  }

  /** Number of fixtures in which `t` is at home, plus the number in which
      it is away. */
  function Appearances(fixtures: seq<Fixture>, t: int): nat {
    Count(fixtures, (f: Fixture) => f.teamH == t) + Count(fixtures, (f: Fixture) => f.teamA == t)
  }

  /** The lookup map agrees with the reference: a team's entry is its
      opponents in fixture order, and a team has an entry exactly when it
      plays. */
  lemma {:induction false} OpponentsByTeamIsOpponentsOf(fixtures: seq<Fixture>, teams: map<int, Team>, t: int)
    ensures t in OpponentsByTeam(fixtures, teams) <==> PlaysIn(fixtures, t)
    ensures Entry(OpponentsByTeam(fixtures, teams), t) == OpponentsOf(fixtures, teams, t)
  {
    if |fixtures| > 0 {
      var init, f := fixtures[..|fixtures| - 1], fixtures[|fixtures| - 1];
      OpponentsByTeamIsOpponentsOf(init, teams, t);
      PlaysInSnoc(fixtures, t);
      RecordEntry(OpponentsByTeam(init, teams), f, teams, t);
    }
  }

  /** Team `t` is one of the two sides of `f`. */
  predicate Plays(f: Fixture, t: int) {
    f.teamH == t || f.teamA == t
  }

  /** Team `t` plays in some fixture of the list. */
  predicate PlaysIn(fixtures: seq<Fixture>, t: int) {
    exists i :: 0 <= i < |fixtures| && Plays(fixtures[i], t)
  }

  /** `t` plays in a non-empty list when it plays in all but the last
      fixture or in the last one. */
  lemma PlaysInSnoc(fixtures: seq<Fixture>, t: int)
    requires |fixtures| > 0
    ensures PlaysIn(fixtures, t) <==> PlaysIn(fixtures[..|fixtures| - 1], t) || Plays(fixtures[|fixtures| - 1], t)
  {
    var init := fixtures[..|fixtures| - 1];
    assert forall i :: 0 <= i < |init| ==> init[i] == fixtures[i];
  }

  /** A team with k fixtures (counting a side once per fixture) has k opponents. */
  lemma {:induction false} OpponentCount(fixtures: seq<Fixture>, teams: map<int, Team>, t: int)
    ensures |OpponentsOf(fixtures, teams, t)| == Appearances(fixtures, t)
  {
    if |fixtures| > 0 {
      var init, f := fixtures[..|fixtures| - 1], fixtures[|fixtures| - 1];
      assert fixtures == init + [f];
      OpponentCount(init, teams, t);
      FilterSnoc(init, f, (g: Fixture) => g.teamH == t);
      FilterSnoc(init, f, (g: Fixture) => g.teamA == t);
    }
  }

  /** The slot comparator `a.position - b.position`, as "may come before". */
  function SlotLe(a: DraftPick, b: DraftPick): bool {
    a.position <= b.position
  }

  lemma SlotLeIsPreorder()
    ensures TotalPreorder(SlotLe)
  {
  }

  /** The draft picks in slot order. */
  function SlotOrder(picks: seq<DraftPick>): (r: seq<DraftPick>)
    ensures |r| == |picks|
    ensures multiset(r) == multiset(picks)
    ensures forall i, j :: 0 <= i < j < |r| ==> r[i].position <= r[j].position
  {
    SlotLeIsPreorder();
    Sort(picks, SlotLe)
  }

  /** Picks sharing a slot keep their relative order. */
  lemma SlotOrderStable(picks: seq<DraftPick>, slot: int)
    ensures Filter(SlotOrder(picks), (p: DraftPick) => p.position == slot)
         == Filter(picks, (p: DraftPick) => p.position == slot)
  {
    SlotLeIsPreorder();
    var e := DraftPick(0, slot, 0, false, false, 0, 0, 0);
    SortStable(picks, SlotLe, e);
    assert forall p: DraftPick :: EquivTo(SlotLe, e)(p) == (p.position == slot);
    FilterSameMeaning(SlotOrder(picks), EquivTo(SlotLe, e), (p: DraftPick) => p.position == slot);
    FilterSameMeaning(picks, EquivTo(SlotLe, e), (p: DraftPick) => p.position == slot);
  }

  /** The squad entry for one pick. A team id of 0 counts as absent, as does
      a photo code of 0. */
  function SquadRow(pick: DraftPick, element: Option<Element>, team: Option<Team>,
                    opponents: seq<string>): SquadPlayer
  {
    SquadPlayer(
      id := if element.Some? then element.value.id else pick.element,
      name := if element.Some? then element.value.webName else "#" + IntToString(pick.element),
      positionType := if element.Some? then element.value.elementType else pick.elementType,
      points := 0,
      isCaptain := pick.isCaptain,
      isViceCaptain := pick.isViceCaptain,
      isBench := pick.position > 11,
      photoCode := if element.Some? && element.value.code != 0 then Some(element.value.code) else None,
      teamAbbr := if team.Some? then Some(team.value.shortName) else None,
      opponents := opponents,
      sellingPrice := pick.sellingPrice,
      purchasePrice := pick.purchasePrice,
      elementType := pick.elementType)
  }

  /** The team id of a pick's catalogue element, when truthy. */
  function PlayerTeamId(element: Option<Element>): Option<int> {
    if element.Some? && element.value.team != 0 then Some(element.value.team) else None
  }

  /** The squad: empty without a draft or with an empty one; otherwise one
      entry per pick in slot order. Each entry is stated in terms of a
      backwards scan of the catalogue and of the opponent reference. */
  function BuildSquad(myTeam: Option<MyTeam>, elements: seq<Element>, teams: seq<Team>,
                      fixtures: seq<Fixture>): (r: seq<SquadPlayer>)
    ensures myTeam.None? ==> r == []
    ensures myTeam.Some? ==> |r| == |myTeam.value.picks|
    ensures myTeam.Some? ==> forall i :: 0 <= i < |r| ==>
      var pick := SlotOrder(myTeam.value.picks)[i];
      var element := LastWithKey(elements, ElementId, pick.element);
      var tid := PlayerTeamId(element);
      r[i] == SquadRow(pick, element,
                       if tid.Some? then LastWithKey(teams, TeamId, tid.value) else None,
                       if tid.Some? then OpponentsOf(fixtures, IndexBy(teams, TeamId), tid.value) else [])
  {
    if myTeam.None? || |myTeam.value.picks| == 0 then []
    else
      var byId := IndexBy(elements, ElementId);
      var teamsById := IndexBy(teams, TeamId);
      var opponents := OpponentsByTeam(fixtures, teamsById);
      IndexByAgrees(elements, ElementId);
      IndexByAgrees(teams, TeamId);
      OpponentsAgree(fixtures, teamsById);
      var sorted := SlotOrder(myTeam.value.picks);
      seq(|sorted|, i requires 0 <= i < |sorted| =>
        var element := Get(byId, sorted[i].element);
        var tid := PlayerTeamId(element);
        SquadRow(sorted[i], element,
                 if tid.Some? then Get(teamsById, tid.value) else None,
                 if tid.Some? then Entry(opponents, tid.value) else []))
  }

  lemma OpponentsAgree(fixtures: seq<Fixture>, teams: map<int, Team>)
    ensures forall t :: Entry(OpponentsByTeam(fixtures, teams), t) == OpponentsOf(fixtures, teams, t)
  {
    forall t {
      OpponentsByTeamIsOpponentsOf(fixtures, teams, t);
    }
  }

  /** Every squad entry carries its pick's player id, has no points yet and
      is on the bench exactly when its slot is above 11; the squad holds the
      draft's player ids, each as often as in the draft. */
  lemma SquadEntries(myTeam: MyTeam, elements: seq<Element>, teams: seq<Team>, fixtures: seq<Fixture>)
    ensures var r := BuildSquad(Some(myTeam), elements, teams, fixtures);
      forall i :: 0 <= i < |r| ==>
        && r[i].id == SlotOrder(myTeam.picks)[i].element
        && r[i].points == 0
        && (r[i].isBench <==> SlotOrder(myTeam.picks)[i].position > 11)
  {
    var r := BuildSquad(Some(myTeam), elements, teams, fixtures);
    forall i | 0 <= i < |r|
      ensures r[i].id == SlotOrder(myTeam.picks)[i].element
    {
      var pick := SlotOrder(myTeam.picks)[i];
      var element := LastWithKey(elements, ElementId, pick.element);
      if element.Some? {
        assert element.value.id == pick.element;
      }
    }
  }

  /** The colour table for team abbreviations. */
  const TeamColors: map<string, string> := map[
    "ARS" := "#EF0107", "AVL" := "#670E36", "BOU" := "#DA291C", "BRE" := "#e30613",
    "BHA" := "#0057B8", "CHE" := "#034694", "CRY" := "#1B458F", "EVE" := "#003399",
    "FUL" := "#000000", "IPS" := "#0044AA", "LEI" := "#003090", "LIV" := "#C8102E",
    "MCI" := "#6CABDD", "MUN" := "#DA291C", "NEW" := "#241F20", "NFO" := "#DD0000",
    "SOU" := "#D71920", "TOT" := "#132257", "WHU" := "#7A263A", "WOL" := "#FDB913"]

  /** The colour of an abbreviation, "#666" when it is not in the table. */
  function ColorOf(abbr: string): (c: string)
    ensures abbr in TeamColors ==> c == TeamColors[abbr]
    ensures abbr !in TeamColors ==> c == "#666"
  {
    if abbr in TeamColors then TeamColors[abbr] else "#666"
  }

  /** No team colour is the fallback grey, so the fallback identifies a
      missing abbreviation. */
  lemma ColorFallbackOnlyForUnknown(abbr: string)
    ensures ColorOf(abbr) == "#666" <==> abbr !in TeamColors
  {
    if abbr in TeamColors {
      assert TeamColors[abbr] != "#666";
    }
  }

  /** One fixture row. `dateLabel` is the locale date rendering of the
      kickoff time, which stays outside the model. */
  function FixtureRowOf(f: Fixture, home: Option<Team>, away: Option<Team>, dateLabel: string): FixtureRow {
    var homeAbbr := if home.Some? then home.value.shortName else "???";
    var awayAbbr := if away.Some? then away.value.shortName else "???";
    FixtureRow(
      date := dateLabel,
      dateIso := f.kickoffTime,
      homeTeam := if home.Some? then home.value.name else "Unknown",
      homeAbbr := homeAbbr,
      homeColor := ColorOf(homeAbbr),
      homeBadgeCode := if home.Some? && home.value.code != 0 then Some(home.value.code) else None,
      awayTeam := if away.Some? then away.value.name else "Unknown",
      awayAbbr := awayAbbr,
      awayColor := ColorOf(awayAbbr),
      awayBadgeCode := if away.Some? && away.value.code != 0 then Some(away.value.code) else None,
      homeScore := f.teamHScore.GetOr(0),
      awayScore := f.teamAScore.GetOr(0))
  }

  /** The fixture rows, one per fixture in order. */
  function FixtureRows(fixtures: seq<Fixture>, teams: seq<Team>, dateLabel: string -> string): (r: seq<FixtureRow>)
    ensures |r| == |fixtures|
    ensures forall i :: 0 <= i < |r| ==>
      r[i] == FixtureRowOf(fixtures[i], LastWithKey(teams, TeamId, fixtures[i].teamH),
                           LastWithKey(teams, TeamId, fixtures[i].teamA), dateLabel(fixtures[i].kickoffTime))
  {
    var teamsById := IndexBy(teams, TeamId);
    IndexByAgrees(teams, TeamId);
    seq(|fixtures|, i requires 0 <= i < |fixtures| =>
      FixtureRowOf(fixtures[i], Get(teamsById, fixtures[i].teamH), Get(teamsById, fixtures[i].teamA),
                   dateLabel(fixtures[i].kickoffTime)))
  }

  /** A row's scores are the fixture's, or 0 before the match; an unknown
      team shows as "Unknown" with abbreviation "???" and the grey colour. */
  lemma FixtureRowDefaults(f: Fixture, home: Option<Team>, away: Option<Team>, dateLabel: string)
    ensures var row := FixtureRowOf(f, home, away, dateLabel);
      && (f.teamHScore.None? ==> row.homeScore == 0)
      && (f.teamHScore.Some? ==> row.homeScore == f.teamHScore.value)
      && (f.teamAScore.None? ==> row.awayScore == 0)
      && (f.teamAScore.Some? ==> row.awayScore == f.teamAScore.value)
      && (home.None? ==> row.homeTeam == "Unknown" && row.homeAbbr == "???" && row.homeColor == "#666")
      && (away.None? ==> row.awayTeam == "Unknown" && row.awayAbbr == "???" && row.awayColor == "#666")
  {
    assert "???" !in TeamColors;
  }

  /** What the page receives after a load. */
  datatype PlanState = PlanState(error: Option<string>, nextGW: int, squad: seq<SquadPlayer>,
                                 fixtures: seq<FixtureRow>)

  /** The state before the first load: no error, gameweek 0, nothing loaded. */
  const InitialPlan := PlanState(None, 0, [], [])

  /** The load, once the responses are in, applied to the hook's previous
      state `prev`. A missing or empty team id only sets the error and keeps
      everything else of `prev`; a missing draft (the backend being down) is
      not an error. `fixtures` is the fixture list of the planned gameweek,
      empty when that request failed. */
  function LoadPlan(prev: PlanState, teamId: Option<string>, events: seq<Event>, elements: seq<Element>,
                    teams: seq<Team>, myTeam: Option<MyTeam>, fixtures: seq<Fixture>,
                    dateLabel: string -> string): (s: PlanState)
    ensures teamId.None? || teamId == Some("") ==>
      && s.error == Some("No team ID")
      && s.nextGW == prev.nextGW && s.squad == prev.squad && s.fixtures == prev.fixtures
    ensures teamId.Some? && teamId.value != "" ==>
      && s.error.None?
      && s.nextGW == NextGameweek(events)
      && s.squad == BuildSquad(myTeam, elements, teams, fixtures)
      && s.fixtures == FixtureRows(fixtures, teams, dateLabel)
      && |s.fixtures| == |fixtures|
  {
    if teamId.None? || teamId.value == "" then prev.(error := Some("No team ID"))
    else PlanState(None, NextGameweek(events), BuildSquad(myTeam, elements, teams, fixtures),
                   FixtureRows(fixtures, teams, dateLabel))
  }

  /** A load with a team id replaces the whole state: what came before does
      not matter. */
  lemma LoadOverwritesPrevious(p1: PlanState, p2: PlanState, teamId: Option<string>, events: seq<Event>,
                               elements: seq<Element>, teams: seq<Team>, myTeam: Option<MyTeam>,
                               fixtures: seq<Fixture>, dateLabel: string -> string)
    requires teamId.Some? && teamId.value != ""
    ensures LoadPlan(p1, teamId, events, elements, teams, myTeam, fixtures, dateLabel)
         == LoadPlan(p2, teamId, events, elements, teams, myTeam, fixtures, dateLabel)
  {
  }

  /** Without a team id on the first run, the page sees the error and nothing
      loaded; a later run without one keeps what an earlier load produced. */
  lemma MissingIdOnFirstRun(events: seq<Event>, elements: seq<Element>, teams: seq<Team>,
                            myTeam: Option<MyTeam>, fixtures: seq<Fixture>, dateLabel: string -> string)
    ensures LoadPlan(InitialPlan, None, events, elements, teams, myTeam, fixtures, dateLabel)
         == PlanState(Some("No team ID"), 0, [], [])
  {
  }
}
