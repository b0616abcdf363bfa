/** Opponent difficulty (src/utils/difficulty.ts): an explicit 1-5 rating
    when one is given, otherwise a fixed strength table, then banded into
    three colours. Ratings are JavaScript numbers, so they are reals here:
    an explicit rating need not be whole. */
module Difficulty {
  import opened Common

  /** The colour band of a rating: up to 2 is easy, exactly 3 is medium,
      anything else (including a fractional rating between 2 and 3) is hard. */
  function DifficultyColor(d: real): (c: string)
    ensures c == "emerald" <==> d <= 2.0
    ensures c == "yellow" <==> d == 3.0
    ensures c == "rose" <==> d > 2.0 && d != 3.0
  {
    if d <= 2.0 then "emerald" else if d == 3.0 then "yellow" else "rose"
  }

  /** The fallback strength table, by team abbreviation. */
  const TeamDifficulty: map<string, int> := map[
    "MCI" := 5, "LIV" := 5, "ARS" := 5,
    "TOT" := 4, "CHE" := 4, "MUN" := 4, "NEW" := 4,
    "AVL" := 3, "WHU" := 3, "BHA" := 3, "FUL" := 3, "WOL" := 3, "BRE" := 3, "EVE" := 3,
    "CRY" := 2, "BOU" := 2, "NFO" := 2, "IPS" := 2,
    "SOU" := 1, "LEI" := 1, "SHU" := 1]

  /** Every table rating lies in 1..5. */
  lemma TableInRange(abbr: string)
    requires abbr in TeamDifficulty
    ensures 1 <= TeamDifficulty[abbr] <= 5
  {
  }

  /** An explicit rating counts only when present and within 1..5. */
  predicate UsableRating(explicit: Option<real>) {
    explicit.Some? && 1.0 <= explicit.value <= 5.0
  }

  /** The rating of an opponent. */
  function OpponentDifficulty(opponentShort: string, explicit: Option<real>): (d: real)
    ensures 1.0 <= d <= 5.0
    ensures UsableRating(explicit) ==> d == explicit.value
    ensures !UsableRating(explicit) && opponentShort in TeamDifficulty ==>
              d == TeamDifficulty[opponentShort] as real
    ensures !UsableRating(explicit) && opponentShort !in TeamDifficulty ==> d == 3.0
  {
    if UsableRating(explicit) then explicit.value
    else if opponentShort in TeamDifficulty then
      TableInRange(opponentShort);
      TeamDifficulty[opponentShort] as real
    else 3.0
  }

  const EasyClasses := "bg-emerald-500/20 border-emerald-600 text-emerald-400"
  const MediumClasses := "bg-yellow-500/20 border-yellow-600 text-yellow-400"
  const HardClasses := "bg-rose-500/20 border-rose-600 text-rose-400"

  /** The badge classes for a rating, chosen by its colour band. */
  function BadgeClasses(d: real): (cls: string)
    ensures cls == EasyClasses || cls == MediumClasses || cls == HardClasses
    ensures cls == EasyClasses <==> DifficultyColor(d) == "emerald"
    ensures cls == MediumClasses <==> DifficultyColor(d) == "yellow"
    ensures cls == HardClasses <==> DifficultyColor(d) == "rose"
  {
    var color := DifficultyColor(d);
    if color == "emerald" then EasyClasses
    else if color == "yellow" then MediumClasses
    else HardClasses
  }

  /** The badge depends on the colour band alone, and different bands give
      different badges. */
  lemma BadgeFollowsColor(a: real, b: real)
    ensures BadgeClasses(a) == BadgeClasses(b) <==> DifficultyColor(a) == DifficultyColor(b)
  {
    assert EasyClasses != MediumClasses && EasyClasses != HardClasses && MediumClasses != HardClasses by {
      assert |EasyClasses| == 53 && |MediumClasses| == 50 && |HardClasses| == 44;
    }
  }

  /** A top-tier opponent with no explicit rating is rated 5 and shown red. */
  lemma TopTierIsHard()
    ensures OpponentDifficulty("MCI", None) == 5.0
    ensures BadgeClasses(OpponentDifficulty("MCI", None)) == HardClasses
  {
  }

  /** An unknown abbreviation falls back to 3, shown yellow; so does an
      explicit rating outside 1..5. */
  lemma UnknownIsMedium(r: real)
    requires r < 1.0 || r > 5.0
    ensures OpponentDifficulty("XXX", None) == 3.0
    ensures OpponentDifficulty("XXX", Some(r)) == 3.0
    ensures BadgeClasses(OpponentDifficulty("XXX", None)) == MediumClasses
  {
    assert "XXX" !in TeamDifficulty;
  }
}
