/** Prediction lookups for a gameweek (src/hooks/usePredictionsData.ts):
    two id-keyed maps built from two independent backend lists. */
module PredictionsData {
  import opened Common
  import opened Lookup

  /** A predicted score; expected points are kept as the integer the
      backend sends, since nothing here computes with them. */
  datatype PredictionPlayer = PredictionPlayer(playerId: int, playerName: string, team: string,
                                               position: string, xp: int)
  datatype UpcomingFixture = UpcomingFixture(opponent: string, opponentShort: string, isHome: bool,
                                             difficulty: Option<int>, kickoffTime: Option<string>)
  datatype PlayerFixture = PlayerFixture(playerId: int, playerName: string, team: string,
                                         fixtures: seq<UpcomingFixture>)

  /** The hook's state once it settles. `loading` is always false there, so
      it is not kept. */
  datatype PredictionsState = PredictionsState(error: Option<string>,
                                               predictions: map<int, PredictionPlayer>,
                                               fixturesByPlayer: map<int, PlayerFixture>)

  function PredictionId(p: PredictionPlayer): int { p.playerId }
  function FixtureOwner(f: PlayerFixture): int { f.playerId }

  /** A gameweek the hook fetches for: present and positive. */
  predicate IsValidGameweek(gw: Option<int>) {
    gw.Some? && gw.value > 0
  }

  /** The settled state. Each response is `None` when its request failed;
      a failure becomes an empty list for that source alone. */
  function LoadPredictions(gw: Option<int>, predictions: Option<seq<PredictionPlayer>>,
                           fixtures: Option<seq<PlayerFixture>>): (s: PredictionsState)
    ensures s.error.None?
    ensures !IsValidGameweek(gw) ==> s.predictions == map[] && s.fixturesByPlayer == map[]
    ensures IsValidGameweek(gw) ==>
      && s.predictions.Keys == KeySet(predictions.GetOr([]), PredictionId)
      && s.fixturesByPlayer.Keys == KeySet(fixtures.GetOr([]), FixtureOwner)
    ensures IsValidGameweek(gw) ==> forall k ::
      && Get(s.predictions, k) == LastWithKey(predictions.GetOr([]), PredictionId, k)
      && Get(s.fixturesByPlayer, k) == LastWithKey(fixtures.GetOr([]), FixtureOwner, k)
  {
    if !IsValidGameweek(gw) then PredictionsState(None, map[], map[])
    else
      IndexByAgrees(predictions.GetOr([]), PredictionId);
      IndexByAgrees(fixtures.GetOr([]), FixtureOwner);
      PredictionsState(None, IndexBy(predictions.GetOr([]), PredictionId),
                       IndexBy(fixtures.GetOr([]), FixtureOwner))
  }

  /** A failed request empties its own map only; the other map is what the
      other response alone determines. */
  lemma FailureIsolated(gw: int, fixtures: Option<seq<PlayerFixture>>, predictions: seq<PredictionPlayer>)
    requires gw > 0
    ensures LoadPredictions(Some(gw), None, fixtures).predictions == map[]
    ensures LoadPredictions(Some(gw), None, fixtures).fixturesByPlayer
         == LoadPredictions(Some(gw), Some(predictions), fixtures).fixturesByPlayer
  {
  }

  /** A later duplicate id wins: appending a prediction makes it the one
      found under its id. */
  lemma LaterDuplicateWins(gw: int, predictions: seq<PredictionPlayer>, p: PredictionPlayer,
                           fixtures: Option<seq<PlayerFixture>>)
    requires gw > 0
    ensures Get(LoadPredictions(Some(gw), Some(predictions + [p]), fixtures).predictions, p.playerId) == Some(p)
  {
    assert LastIndexWithKey(predictions + [p], PredictionId, p.playerId) == Some(|predictions|);
  }
}
