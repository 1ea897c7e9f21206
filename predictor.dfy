/**
 * The per-game decision of the bracket engine: rating lookup with defaults
 * and the `chalk`, `value` and `chaos` pick rules.
 *
 * The log5 win probability and `random.random()` are not computed here:
 * each game receives a `Chance` holding the probability that team A wins
 * and the outcome of the random draw that the strategy compares against it.
 */
module Predictor {
  import opened Wrappers

  /** A KenPom rating row. */
  datatype Rating = Rating(adjEm: real, adjO: real, adjD: real, tempo: real)

  /** The rating assumed for a team missing from the KenPom table. */
  const DefaultRating: Rating := Rating(0.0, 100.0, 100.0, 68.0)

  /** A contestant: a team dict with a name and, except in the national semifinals, a seed. */
  datatype Side = Side(name: string, seed: Option<int>)

  /**
   * The oracle's answer for one game: `probA` is the log5 probability that
   * team A wins; `coinA` says whether the random draw favours team A under
   * the strategy's own test (`random() <= probA` for value,
   * `random() < 0.85 * probA` for chaos, `random() < probA` otherwise).
   */
  datatype Chance = Chance(probA: real, coinA: bool)

  /** `get_team_kenpom`: the team's rating, or the default rating when it has none. */
  function GetTeamKenpom(name: string, kenpom: map<string, Rating>): (r: Rating)
    ensures name in kenpom ==> r == kenpom[name]
    ensures name !in kenpom ==> r == DefaultRating && r.adjEm == 0.0
  {
    if name in kenpom then kenpom[name] else DefaultRating
  }

  /** `team.get('seed', 16)`. */
  function SeedOr16(s: Side): int {
    s.seed.GetOr(16)
  }

  /**
   * `predict_game`. Chalk picks A exactly when A's rating is strictly higher
   * (log5 gives probability above one half exactly then); value picks the
   * clear favourite outside [0.4, 0.6] and otherwise the better seed, falling
   * back on the draw; chaos and any other strategy follow the draw.
   */
  function PredictGame(a: Side, b: Side, kenpom: map<string, Rating>, strategy: string, chance: Chance): (w: string)
    ensures w == a.name || w == b.name
    ensures strategy == "chalk" && a.name != b.name ==>
      (w == a.name <==> GetTeamKenpom(a.name, kenpom).adjEm > GetTeamKenpom(b.name, kenpom).adjEm)
    ensures strategy == "value" && chance.probA > 0.6 ==> w == a.name
    ensures strategy == "value" && chance.probA < 0.4 ==> w == b.name
    ensures strategy == "value" && 0.4 <= chance.probA <= 0.6 && SeedOr16(a) < SeedOr16(b) ==> w == a.name
  {
    if strategy == "chalk" then
      if GetTeamKenpom(a.name, kenpom).adjEm > GetTeamKenpom(b.name, kenpom).adjEm then a.name else b.name
    else if strategy == "value" then
      if chance.probA > 0.6 then a.name
      else if chance.probA < 0.4 then b.name
      else if SeedOr16(a) < SeedOr16(b) then a.name
      else if chance.coinA then a.name else b.name
    else if strategy == "chaos" then
      if chance.coinA then a.name else b.name
    else
      if chance.coinA then a.name else b.name
  }

  /** Chalk ignores the draw: the same two teams always give the same pick. */
  lemma {:induction false} ChalkIsDeterministic(a: Side, b: Side, kenpom: map<string, Rating>, c1: Chance, c2: Chance)
    ensures PredictGame(a, b, kenpom, "chalk", c1) == PredictGame(a, b, kenpom, "chalk", c2)
  {
  }

  /** An unrated team loses a chalk game to any team with a positive rating, and wins against a negative one. */
  lemma ChalkAgainstUnrated(a: Side, b: Side, kenpom: map<string, Rating>, c: Chance)
    requires a.name !in kenpom && b.name in kenpom && a.name != b.name
    ensures PredictGame(a, b, kenpom, "chalk", c) == a.name <==> kenpom[b.name].adjEm < 0.0
  {
  }
}
