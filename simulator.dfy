/**
 * `simulate_bracket`: every region's teams are sorted by seed and paired
 * off round by round, the region champions form the Final Four, and the
 * semifinal and final winners give the championship pair and the champion.
 */
module Simulator {
  import opened Wrappers
  import opened Text
  import opened Tournament
  import opened Predictor

  /** A pick key `"<region>_<i>"`: the region and the index of the game's first team. */
  datatype GameKey = GameKey(region: string, index: nat)

  /** The key as the picks dictionary spells it. */
  function KeyString(k: GameKey): string {
    k.region + "_" + NatToString(k.index)
  }

  /** An insertion-ordered dictionary from game key to winner name. */
  type Picks = seq<(GameKey, string)>

  /** Everything a game decision depends on: ratings, strategy and the per-game oracle. */
  datatype Env = Env(kenpom: map<string, Rating>, strategy: string, draw: (Side, Side) -> Chance)

  function Play(env: Env, a: Side, b: Side): (w: string)
    ensures w == a.name || w == b.name
  {
    PredictGame(a, b, env.kenpom, env.strategy, env.draw(a, b))
  }

  /** The winner as carried into the next round: its name and the seed of the side it came from. */
  function Advance(a: Side, b: Side, w: string): Side {
    Side(w, if w == a.name then a.seed else b.seed)
  }

  function AsSide(t: Team): Side {
    Side(t.name, Some(t.seed))
  }

  function AsSides(teams: seq<Team>): (r: seq<Side>)
    ensures |r| == |teams|
  {
    seq(|teams|, k requires 0 <= k < |teams| => AsSide(teams[k]))
  }

  /** The winner of game `j`, which pairs sides `2j` and `2j + 1`. */
  function GameWinner(env: Env, s: seq<Side>, j: nat): Side
    requires 2 * j + 1 < |s|
  {
    Advance(s[2 * j], s[2 * j + 1], Play(env, s[2 * j], s[2 * j + 1]))
  }

  /** One round: one winner per pair, a trailing unpaired side dropped. */
  function RoundWinners(env: Env, s: seq<Side>): (r: seq<Side>)
    ensures |r| == |s| / 2
  {
    seq(|s| / 2, j requires 0 <= j < |s| / 2 => GameWinner(env, s, j))
  }

  /** The round's picks: game `j` recorded under `"<region>_<2j>"`. */
  function RoundPicks(region: string, env: Env, s: seq<Side>): (r: Picks)
    ensures |r| == |s| / 2
  {
    seq(|s| / 2, j requires 0 <= j < |s| / 2 => (GameKey(region, 2 * j), GameWinner(env, s, j).name))
  }

  /**
   * Game `j` pairs sides `2j` and `2j + 1`: its winner is one of those two
   * sides, seed included, and its pick is keyed `"<region>_<2j>"`.
   */
  lemma RoundPairing(env: Env, region: string, s: seq<Side>)
    ensures |RoundWinners(env, s)| == |RoundPicks(region, env, s)| == |s| / 2
    ensures forall j :: 0 <= j < |s| / 2 ==>
      && (RoundWinners(env, s)[j] == s[2 * j] || RoundWinners(env, s)[j] == s[2 * j + 1])
      && RoundPicks(region, env, s)[j] == (GameKey(region, 2 * j), RoundWinners(env, s)[j].name)
  {
  }

  /** A first-round game is an upset when the winner is the team with the strictly larger seed number. */
  predicate IsUpset(a: Team, b: Team, w: string) {
    (a.seed < b.seed && w == b.name) || (b.seed < a.seed && w == a.name)
  }

  /** The upsets among the first `n` first-round games of a seed-sorted field. */
  function UpsetCount(env: Env, teams: seq<Team>, n: nat): nat
    requires 2 * n <= |teams|
  {
    if n == 0 then 0
    else
      var a, b := teams[2 * n - 2], teams[2 * n - 1];
      UpsetCount(env, teams, n - 1) + (if IsUpset(a, b, Play(env, AsSide(a), AsSide(b))) then 1 else 0)
  }

  /** What one region contributes. */
  datatype RegionPlay = RegionPlay(round64: Picks, round32: Picks, sweet16: Picks, champ: Option<string>, upsets: nat)

  function SweetSixteenWinners(env: Env, region: Region): seq<Side> {
    RoundWinners(env, RoundWinners(env, RoundWinners(env, AsSides(SortBySeed(region.teams)))))
  }

  function PlayRegion(env: Env, region: Region): RegionPlay {
    var field := AsSides(SortBySeed(region.teams));
    var w64 := RoundWinners(env, field);
    var w32 := RoundWinners(env, w64);
    var w16 := RoundWinners(env, w32);
    RegionPlay(
      RoundPicks(region.name, env, field),
      RoundPicks(region.name, env, w64),
      RoundPicks(region.name, env, w32),
      if |w16| >= 2 then Some(Play(env, w16[0], w16[1])) else None,
      UpsetCount(env, SortBySeed(region.teams), |region.teams| / 2))
  }

  /** The picks dictionary and upset count after some regions have been played. */
  datatype Tally = Tally(round64: Picks, round32: Picks, sweet16: Picks,
                         elite8: seq<(string, string)>, final4: seq<string>, upsets: nat)

  /** The tally after one more region has been played. */
  function AddRegion(t: Tally, name: string, p: RegionPlay): Tally {
    Tally(t.round64 + p.round64, t.round32 + p.round32, t.sweet16 + p.sweet16,
          t.elite8 + (if p.champ.Some? then [(name, p.champ.value)] else []),
          t.final4 + (if p.champ.Some? then [p.champ.value] else []),
          t.upsets + p.upsets)
  }

  /** Each region's name with what it contributed, in region order. */
  function RegionResults(env: Env, regions: seq<Region>): (r: seq<(string, RegionPlay)>)
    ensures |r| == |regions|
  {
    seq(|regions|, k requires 0 <= k < |regions| => (regions[k].name, PlayRegion(env, regions[k])))
  }

  /** The tally after playing the given regions in order. */
  function TallyOf(results: seq<(string, RegionPlay)>): Tally {
    if results == [] then Tally([], [], [], [], [], 0)
    else
      var last := results[|results| - 1];
      AddRegion(TallyOf(results[..|results| - 1]), last.0, last.1)
  }

  /** The `picks` dictionary of a simulated bracket. */
  datatype BracketPicks = BracketPicks(
    round64: Picks, round32: Picks, sweet16: Picks, elite8: seq<(string, string)>,
    final4: seq<string>, championship: Option<(string, string)>, champion: Option<string>)

  datatype SimResult = SimResult(picks: BracketPicks, champion: Option<string>, finalFour: seq<string>,
                                 upsetCount: nat, expectedScore: int)

  /** The whole simulation; the national semifinals are Final Four entries 0 v 1 and 2 v 3. */
  function Simulate(env: Env, structure: BracketStructure): (r: SimResult)
    ensures r.champion == r.picks.champion && r.finalFour == r.picks.final4
    ensures r.picks.championship.Some? <==> |r.finalFour| >= 4
    ensures r.champion.Some? <==> |r.finalFour| >= 4
    ensures r.picks.championship.Some? ==>
      var (x, y) := r.picks.championship.value;
      && (x == r.finalFour[0] || x == r.finalFour[1])
      && (y == r.finalFour[2] || y == r.finalFour[3])
      && (r.champion.value == x || r.champion.value == y)
    ensures r.expectedScore == 320 - 5 * r.upsetCount
  {
    var t := TallyOf(RegionResults(env, structure.regions));
    var ff := t.final4;
    var score := 320 - t.upsets * 5;
    if |ff| >= 4 then
      var sf1 := Play(env, Side(ff[0], None), Side(ff[1], None));
      var sf2 := Play(env, Side(ff[2], None), Side(ff[3], None));
      var champ := Play(env, Side(sf1, None), Side(sf2, None));
      SimResult(BracketPicks(t.round64, t.round32, t.sweet16, t.elite8, ff, Some((sf1, sf2)), Some(champ)),
                Some(champ), ff, t.upsets, score)
    else
      SimResult(BracketPicks(t.round64, t.round32, t.sweet16, t.elite8, ff, None, None),
                None, ff, t.upsets, score)
  }

  // ---------------------------------------------------------------------
  // The imperative engine.

  /** How many games a `range(0, n, 2)` loop has played once its index reaches `i`. */
  function GamesDone(i: nat, n: nat): nat {
    (if i < n then i else n) / 2
  }

  /** A round's winners and picks grow by one game at a time. */
  lemma RoundPrefix(env: Env, region: string, s: seq<Side>, j: nat)
    requires 2 * j + 1 < |s|
    ensures RoundWinners(env, s)[..j + 1] == RoundWinners(env, s)[..j] + [GameWinner(env, s, j)]
    ensures RoundPicks(region, env, s)[..j + 1] == RoundPicks(region, env, s)[..j] + [(GameKey(region, 2 * j), GameWinner(env, s, j).name)]
  {
  }

  /** Game `j` of the opening round: its winner on the field and its part in the upset count. */
  lemma OpeningGame(env: Env, teams: seq<Team>, j: nat)
    requires 2 * j + 1 < |teams|
    ensures var a, b := teams[2 * j], teams[2 * j + 1];
      var w := Play(env, AsSide(a), AsSide(b));
      && GameWinner(env, AsSides(teams), j) == Side(w, Some(if w == a.name then a.seed else b.seed))
      && UpsetCount(env, teams, j + 1) == UpsetCount(env, teams, j) + (if IsUpset(a, b, w) then 1 else 0)
  {
  }

  lemma GamesDoneStep(j: nat, n: nat)
    requires 2 * j <= n + 1
    ensures 2 * j + 1 < n ==> GamesDone(2 * j, n) == j && GamesDone(2 * j + 2, n) == j + 1
    ensures 2 * j + 1 >= n ==> GamesDone(2 * j + 2, n) == GamesDone(2 * j, n)
  {
  }

  /** One opening game extends the winners, the picks and the upset count. */
  lemma OpeningStep(env: Env, region: string, teams: seq<Team>, j: nat)
    requires 2 * j + 1 < |teams|
    ensures var a, b := teams[2 * j], teams[2 * j + 1];
      var w := PredictGame(AsSide(a), AsSide(b), env.kenpom, env.strategy, env.draw(AsSide(a), AsSide(b)));
      && RoundWinners(env, AsSides(teams))[..j + 1]
         == RoundWinners(env, AsSides(teams))[..j] + [Side(w, Some(if w == a.name then a.seed else b.seed))]
      && RoundPicks(region, env, AsSides(teams))[..j + 1]
         == RoundPicks(region, env, AsSides(teams))[..j] + [(GameKey(region, 2 * j), w)]
      && UpsetCount(env, teams, j + 1) == UpsetCount(env, teams, j) + (if IsUpset(a, b, w) then 1 else 0)
  {
    OpeningGame(env, teams, j);
    RoundPrefix(env, region, AsSides(teams), j);
  }

  /** The round-of-64 loop: winners, picks and the upsets among them. */
  method PlayOpeningRound(env: Env, region: string, teams: seq<Team>) returns (winners: seq<Side>, picks: Picks, upsets: nat)
    ensures winners == RoundWinners(env, AsSides(teams))
    ensures picks == RoundPicks(region, env, AsSides(teams))
    ensures upsets == UpsetCount(env, teams, |teams| / 2)
  {
    ghost var field := AsSides(teams);
    winners, picks, upsets := [], [], 0;
    var i := 0;
    ghost var j := 0;
    while i < |teams|
      invariant i == 2 * j && 0 <= i <= |teams| + 1
      invariant winners == RoundWinners(env, field)[..GamesDone(i, |teams|)]
      invariant picks == RoundPicks(region, env, field)[..GamesDone(i, |teams|)]
      invariant upsets == UpsetCount(env, teams, GamesDone(i, |teams|))
    {
      GamesDoneStep(j, |teams|);
      if i + 1 < |teams| {
        var teamA, teamB := teams[i], teams[i + 1];
        OpeningStep(env, region, teams, j);
        var winner := PredictGame(AsSide(teamA), AsSide(teamB), env.kenpom, env.strategy, env.draw(AsSide(teamA), AsSide(teamB)));
        winners := winners + [Side(winner, Some(if winner == teamA.name then teamA.seed else teamB.seed))];
        picks := picks + [(GameKey(region, i), winner)];
        if teamA.seed < teamB.seed && winner == teamB.name {
          upsets := upsets + 1;
        } else if teamB.seed < teamA.seed && winner == teamA.name {
          upsets := upsets + 1;
        }
      }
      i, j := i + 2, j + 1;
    }
    assert RoundWinners(env, field)[..|teams| / 2] == RoundWinners(env, field);
    assert RoundPicks(region, env, field)[..|teams| / 2] == RoundPicks(region, env, field);
  }

  /** The round-of-32 and Sweet 16 loops. */
  method PlayRound(env: Env, region: string, s: seq<Side>) returns (winners: seq<Side>, picks: Picks)
    ensures winners == RoundWinners(env, s)
    ensures picks == RoundPicks(region, env, s)
  {
    winners, picks := [], [];
    var i := 0;
    ghost var j := 0;
    while i < |s|
      invariant i == 2 * j && 0 <= i <= |s| + 1
      invariant winners == RoundWinners(env, s)[..GamesDone(i, |s|)]
      invariant picks == RoundPicks(region, env, s)[..GamesDone(i, |s|)]
    {
      GamesDoneStep(j, |s|);
      if i + 1 < |s| {
        RoundPrefix(env, region, s, j);
        var winner := PredictGame(s[i], s[i + 1], env.kenpom, env.strategy, env.draw(s[i], s[i + 1]));
        winners := winners + [Side(winner, if winner == s[i].name then s[i].seed else s[i + 1].seed)];
        picks := picks + [(GameKey(region, i), winner)];
      }
      i, j := i + 2, j + 1;
    }
    assert RoundWinners(env, s)[..|s| / 2] == RoundWinners(env, s);
    assert RoundPicks(region, env, s)[..|s| / 2] == RoundPicks(region, env, s);
  }

  /** One region's three loops and its Elite Eight game. */
  method PlayRegionGames(env: Env, region: Region) returns (p: RegionPlay)
    ensures p == PlayRegion(env, region)
  {
    var sorted := SortBySeed(region.teams);
    var w64, p64, upsets := PlayOpeningRound(env, region.name, sorted);
    var w32, p32 := PlayRound(env, region.name, w64);
    var w16, p16 := PlayRound(env, region.name, w32);
    var champ: Option<string> := None;
    if |w16| >= 2 {
      var winner := PredictGame(w16[0], w16[1], env.kenpom, env.strategy, env.draw(w16[0], w16[1]));
      champ := Some(winner);
    }
    p := RegionPlay(p64, p32, p16, champ, upsets);
  }

  lemma TallySnoc(results: seq<(string, RegionPlay)>, k: nat)
    requires k < |results|
    ensures TallyOf(results[..k + 1]) == AddRegion(TallyOf(results[..k]), results[k].0, results[k].1)
  {
    assert results[..k + 1][..k] == results[..k];
  }

  lemma AddRegionParts(t: Tally, name: string, p: RegionPlay)
    ensures var n := AddRegion(t, name, p);
      && n.round64 == t.round64 + p.round64 && n.round32 == t.round32 + p.round32 && n.sweet16 == t.sweet16 + p.sweet16
      && n.elite8 == (if p.champ.Some? then t.elite8 + [(name, p.champ.value)] else t.elite8)
      && n.final4 == (if p.champ.Some? then t.final4 + [p.champ.value] else t.final4)
      && n.upsets == t.upsets + p.upsets
  {
    assert t.elite8 + [] == t.elite8 && t.final4 + [] == t.final4;
  }

  lemma EmptyRegionAddsNothing(env: Env, t: Tally, region: Region)
    requires region.teams == []
    ensures AddRegion(t, region.name, PlayRegion(env, region)) == t
  {
    var p := PlayRegion(env, region);
    assert p.round64 == [] && p.round32 == [] && p.sweet16 == [] && p.champ == None && p.upsets == 0;
    assert t.round64 + [] == t.round64 && t.round32 + [] == t.round32 && t.sweet16 + [] == t.sweet16;
    assert t.elite8 + [] == t.elite8 && t.final4 + [] == t.final4;
  }

  /** Playing one more region adds its contribution to the tally; an empty region adds nothing. */
  lemma RegionStep(env: Env, regions: seq<Region>, k: nat)
    requires k < |regions|
    ensures var results := RegionResults(env, regions);
      TallyOf(results[..k + 1]) == AddRegion(TallyOf(results[..k]), regions[k].name, PlayRegion(env, regions[k]))
    ensures regions[k].teams == [] ==>
      var results := RegionResults(env, regions);
      TallyOf(results[..k + 1]) == TallyOf(results[..k])
  {
    var results := RegionResults(env, regions);
    TallySnoc(results, k);
    if regions[k].teams == [] {
      EmptyRegionAddsNothing(env, TallyOf(results[..k]), regions[k]);
    }
  }

  /** The loop over the regions of `simulate_bracket`; a region without teams is skipped. */
  method PlayRegions(env: Env, regions: seq<Region>) returns (t: Tally)
    ensures t == TallyOf(RegionResults(env, regions))
  {
    ghost var results := RegionResults(env, regions);
    var round64: Picks, round32: Picks, sweet16: Picks := [], [], [];
    var elite8: seq<(string, string)>, final4: seq<string> := [], [];
    var upsetCount: nat := 0;
    var k := 0;
    while k < |regions|
      invariant 0 <= k <= |regions|
      invariant Tally(round64, round32, sweet16, elite8, final4, upsetCount) == TallyOf(results[..k])
    {
      var region := regions[k];
      ghost var before := TallyOf(results[..k]);
      RegionStep(env, regions, k);
      if region.teams == [] {
        k := k + 1;
        continue;
      }
      var p := PlayRegionGames(env, region);
      AddRegionParts(before, region.name, p);
      round64, round32, sweet16 := round64 + p.round64, round32 + p.round32, sweet16 + p.sweet16;
      upsetCount := upsetCount + p.upsets;
      if p.champ.Some? {
        elite8 := elite8 + [(region.name, p.champ.value)];
        final4 := final4 + [p.champ.value];
      }
      k := k + 1;
    }
    assert results[..k] == results;
    t := Tally(round64, round32, sweet16, elite8, final4, upsetCount);
  }

  /** `simulate_bracket`: the regions, then the Final Four and the championship game. */
  method SimulateBracket(structure: BracketStructure, kenpom: map<string, Rating>, strategy: string,
                         draw: (Side, Side) -> Chance) returns (r: SimResult)
    ensures r == Simulate(Env(kenpom, strategy, draw), structure)
  {
    var env := Env(kenpom, strategy, draw);
    var t := PlayRegions(env, structure.regions);
    var final4 := t.final4;
    var championship: Option<(string, string)> := None;
    var champion: Option<string> := None;
    if |final4| >= 4 {
      var sf1 := PredictGame(Side(final4[0], None), Side(final4[1], None), kenpom, strategy,
                             draw(Side(final4[0], None), Side(final4[1], None)));
      var sf2 := PredictGame(Side(final4[2], None), Side(final4[3], None), kenpom, strategy,
                             draw(Side(final4[2], None), Side(final4[3], None)));
      championship := Some((sf1, sf2));
      var champ := PredictGame(Side(sf1, None), Side(sf2, None), kenpom, strategy, draw(Side(sf1, None), Side(sf2, None)));
      champion := Some(champ);
    }
    var expectedScore := 320 - t.upsets * 5;
    r := SimResult(BracketPicks(t.round64, t.round32, t.sweet16, t.elite8, final4, championship, champion),
                   champion, final4, t.upsets, expectedScore);
  }

  // ---------------------------------------------------------------------
  // The shape of a tally, whatever the regions contributed.

  /** Every region champion is reported twice, under `elite_8` and in `final_four`, in the same order. */
  lemma {:induction false} EliteEightFeedsFinalFour(results: seq<(string, RegionPlay)>)
    ensures var t := TallyOf(results);
      |t.elite8| == |t.final4| && forall k :: 0 <= k < |t.final4| ==> t.elite8[k].1 == t.final4[k]
    decreases |results|
  {
    if results != [] {
      EliteEightFeedsFinalFour(results[..|results| - 1]);
    }
  }

  lemma {:induction false} TallyChampionsInOrder(results: seq<(string, RegionPlay)>)
    requires forall k :: 0 <= k < |results| ==> results[k].1.champ.Some?
    ensures var t := TallyOf(results);
      && |t.final4| == |t.elite8| == |results|
      && forall k :: 0 <= k < |results| ==>
           t.final4[k] == results[k].1.champ.value && t.elite8[k] == (results[k].0, t.final4[k])
    decreases |results|
  {
    if results != [] {
      var n := |results| - 1;
      var init := results[..n];
      TallyChampionsInOrder(init);
      var t := TallyOf(init);
      var u := TallyOf(results);
      assert u.final4 == t.final4 + [results[n].1.champ.value];
      assert u.elite8 == t.elite8 + [(results[n].0, results[n].1.champ.value)];
    }
  }

  lemma {:induction false} TallyUpsets(results: seq<(string, RegionPlay)>)
    requires forall k :: 0 <= k < |results| ==> results[k].1.upsets <= |results[k].1.round64|
    ensures TallyOf(results).upsets <= |TallyOf(results).round64|
    decreases |results|
  {
    if results != [] {
      TallyUpsets(results[..|results| - 1]);
    }
  }

  /** What a region of sixteen teams contributes: 8, 4 and 2 picks and a champion. */
  predicate FullRegionPlay(p: RegionPlay) {
    |p.round64| == 8 && |p.round32| == 4 && |p.sweet16| == 2 && p.champ.Some?
  }

  lemma {:induction false} TallySizes(results: seq<(string, RegionPlay)>)
    requires forall k :: 0 <= k < |results| ==> FullRegionPlay(results[k].1)
    ensures var t := TallyOf(results);
      && |t.round64| == 8 * |results| && |t.round32| == 4 * |results| && |t.sweet16| == 2 * |results|
      && |t.elite8| == |t.final4| == |results|
    decreases |results|
  {
    if results != [] {
      TallySizes(results[..|results| - 1]);
    }
  }

  lemma {:induction false} TallyFinalFourWithin(results: seq<(string, RegionPlay)>, names: set<string>)
    requires forall k :: 0 <= k < |results| && results[k].1.champ.Some? ==> results[k].1.champ.value in names
    ensures forall x :: x in TallyOf(results).final4 ==> x in names
    decreases |results|
  {
    if results != [] {
      TallyFinalFourWithin(results[..|results| - 1], names);
    }
  }

  predicate DistinctKeys(p: Picks) {
    forall i, j :: 0 <= i < j < |p| ==> p[i].0 != p[j].0
  }

  predicate KeysWithin(p: Picks, names: set<string>) {
    forall i :: 0 <= i < |p| ==> p[i].0.region in names
  }

  /** A region's picks are keyed by that region's name, one key per game. */
  predicate KeyedBy(p: RegionPlay, name: string) {
    && DistinctKeys(p.round64) && KeysWithin(p.round64, {name})
    && DistinctKeys(p.round32) && KeysWithin(p.round32, {name})
    && DistinctKeys(p.sweet16) && KeysWithin(p.sweet16, {name})
  }

  function ResultNames(results: seq<(string, RegionPlay)>): set<string> {
    set k | 0 <= k < |results| :: results[k].0
  }

  lemma AppendRegionPicks(p: Picks, q: Picks, names: set<string>, name: string)
    requires DistinctKeys(p) && KeysWithin(p, names) && name !in names
    requires DistinctKeys(q) && KeysWithin(q, {name})
    ensures DistinctKeys(p + q) && KeysWithin(p + q, names + {name})
  {
    forall i, j | 0 <= i < j < |p + q| ensures (p + q)[i].0 != (p + q)[j].0 {
      if i < |p| && j >= |p| {
        assert (p + q)[i].0.region in names;
        assert (p + q)[j].0.region == name;
      }
    }
  }

  lemma {:induction false} TallyKeysDistinct(results: seq<(string, RegionPlay)>)
    requires forall i, j :: 0 <= i < j < |results| ==> results[i].0 != results[j].0
    requires forall k :: 0 <= k < |results| ==> KeyedBy(results[k].1, results[k].0)
    ensures var t := TallyOf(results);
      && DistinctKeys(t.round64) && KeysWithin(t.round64, ResultNames(results))
      && DistinctKeys(t.round32) && KeysWithin(t.round32, ResultNames(results))
      && DistinctKeys(t.sweet16) && KeysWithin(t.sweet16, ResultNames(results))
    decreases |results|
  {
    if results != [] {
      var n := |results| - 1;
      var init := results[..n];
      var (name, p) := results[n];
      TallyKeysDistinct(init);
      var t := TallyOf(init);
      assert name !in ResultNames(init);
      assert ResultNames(results) == ResultNames(init) + {name};
      AppendRegionPicks(t.round64, p.round64, ResultNames(init), name);
      AppendRegionPicks(t.round32, p.round32, ResultNames(init), name);
      AppendRegionPicks(t.sweet16, p.sweet16, ResultNames(init), name);
    }
  }

  // ---------------------------------------------------------------------
  // What one region contributes.

  lemma UpsetCountBound(env: Env, teams: seq<Team>, n: nat)
    requires 2 * n <= |teams|
    ensures UpsetCount(env, teams, n) <= n
    decreases n
  {
    if n > 0 {
      UpsetCountBound(env, teams, n - 1);
    }
  }

  lemma RegionUpsets(env: Env, region: Region)
    ensures PlayRegion(env, region).upsets <= |PlayRegion(env, region).round64|
  {
    UpsetCountBound(env, SortBySeed(region.teams), |region.teams| / 2);
  }

  lemma RegionSizes(env: Env, region: Region)
    requires |region.teams| == 16
    ensures FullRegionPlay(PlayRegion(env, region))
  {
  }

  lemma RoundPicksKeys(region: string, env: Env, s: seq<Side>)
    ensures DistinctKeys(RoundPicks(region, env, s)) && KeysWithin(RoundPicks(region, env, s), {region})
  {
  }

  lemma RegionKeys(env: Env, region: Region)
    ensures KeyedBy(PlayRegion(env, region), region.name)
  {
    var field := AsSides(SortBySeed(region.teams));
    var w64 := RoundWinners(env, field);
    RoundPicksKeys(region.name, env, field);
    RoundPicksKeys(region.name, env, w64);
    RoundPicksKeys(region.name, env, RoundWinners(env, w64));
  }

  function SideNames(s: seq<Side>): set<string> {
    set i | 0 <= i < |s| :: s[i].name
  }

  function TeamNames(teams: seq<Team>): set<string> {
    set t | t in teams :: t.name
  }

  lemma WinnersComeFromField(env: Env, s: seq<Side>)
    ensures SideNames(RoundWinners(env, s)) <= SideNames(s)
  {
    var w := RoundWinners(env, s);
    forall x | x in SideNames(w) ensures x in SideNames(s) {
      var j :| 0 <= j < |w| && w[j].name == x;
      assert w[j] == GameWinner(env, s, j);
      assert s[2 * j].name in SideNames(s) && s[2 * j + 1].name in SideNames(s);
    }
  }

  lemma FieldNames(teams: seq<Team>)
    ensures SideNames(AsSides(SortBySeed(teams))) <= TeamNames(teams)
  {
    var sorted := SortBySeed(teams);
    SortBySeedPermutes(teams);
    forall x | x in SideNames(AsSides(sorted)) ensures x in TeamNames(teams) {
      var i :| 0 <= i < |sorted| && AsSides(sorted)[i].name == x;
      assert sorted[i] in multiset(teams);
    }
  }

  /** A region champion is one of the region's own teams. */
  lemma RegionChampionIsEntrant(env: Env, region: Region)
    ensures PlayRegion(env, region).champ.Some? ==> PlayRegion(env, region).champ.value in TeamNames(region.teams)
  {
    var field := AsSides(SortBySeed(region.teams));
    var w64 := RoundWinners(env, field);
    var w32 := RoundWinners(env, w64);
    var w16 := RoundWinners(env, w32);
    FieldNames(region.teams);
    WinnersComeFromField(env, field);
    WinnersComeFromField(env, w64);
    WinnersComeFromField(env, w32);
    if |w16| >= 2 {
      assert w16[0].name in SideNames(w16) && w16[1].name in SideNames(w16);
    }
  }

  // ---------------------------------------------------------------------
  // What a simulated bracket looks like.

  predicate FullField(structure: BracketStructure) {
    |structure.regions| == 4 && forall k :: 0 <= k < 4 ==> |structure.regions[k].teams| == 16
  }

  /** The `elite_8` entries and the Final Four name the same teams in the same order. */
  lemma EliteEightMatchesFinalFour(env: Env, structure: BracketStructure)
    ensures var r := Simulate(env, structure);
      |r.picks.elite8| == |r.finalFour| && forall k :: 0 <= k < |r.finalFour| ==> r.picks.elite8[k].1 == r.finalFour[k]
  {
    EliteEightFeedsFinalFour(RegionResults(env, structure.regions));
  }

  /**
   * A full 64-team field yields 32, 16, 8 and 4 regional picks, a Final
   * Four of four, both finalists and a champion (63 games in all), and an
   * expected score between 160 and 320.
   */
  lemma FullBracket(env: Env, structure: BracketStructure)
    requires FullField(structure)
    ensures var r := Simulate(env, structure);
      && |r.picks.round64| == 32 && |r.picks.round32| == 16 && |r.picks.sweet16| == 8
      && |r.picks.elite8| == 4 && |r.finalFour| == 4
      && r.picks.championship.Some? && r.champion.Some?
      && |r.picks.round64| + |r.picks.round32| + |r.picks.sweet16| + |r.picks.elite8| + 2 + 1 == 63
      && r.upsetCount <= 32 && 160 <= r.expectedScore <= 320
  {
    var results := RegionResults(env, structure.regions);
    forall k | 0 <= k < |results| ensures FullRegionPlay(results[k].1) && results[k].1.upsets <= |results[k].1.round64| {
      RegionSizes(env, structure.regions[k]);
      RegionUpsets(env, structure.regions[k]);
    }
    TallySizes(results);
    TallyUpsets(results);
  }

  /** In a full field the Final Four holds the four region champions in region order. */
  lemma FinalFourInRegionOrder(env: Env, structure: BracketStructure)
    requires FullField(structure)
    ensures var r := Simulate(env, structure);
      && |r.finalFour| == 4 && |r.picks.elite8| == 4
      && forall k :: 0 <= k < 4 ==>
           PlayRegion(env, structure.regions[k]).champ == Some(r.finalFour[k]) &&
           r.picks.elite8[k] == (structure.regions[k].name, r.finalFour[k])
  {
    var results := RegionResults(env, structure.regions);
    forall k | 0 <= k < |results| ensures results[k].1.champ.Some? {
      RegionSizes(env, structure.regions[k]);
    }
    TallyChampionsInOrder(results);
    var t := TallyOf(results);
    var r := Simulate(env, structure);
    assert r.picks.elite8 == t.elite8 && r.finalFour == t.final4;
    forall k | 0 <= k < 4
      ensures PlayRegion(env, structure.regions[k]).champ == Some(r.finalFour[k])
      ensures r.picks.elite8[k] == (structure.regions[k].name, r.finalFour[k])
    {
      assert results[k] == (structure.regions[k].name, PlayRegion(env, structure.regions[k]));
    }
  }

  /** The names of every team entered in the regions. */
  function Entrants(regions: seq<Region>): set<string> {
    set k, t | 0 <= k < |regions| && t in regions[k].teams :: t.name
  }

  /** The Final Four, both finalists and the champion are all entered teams. */
  lemma ChampionIsEntrant(env: Env, structure: BracketStructure)
    ensures var r := Simulate(env, structure);
      && (forall x :: x in r.finalFour ==> x in Entrants(structure.regions))
      && (r.picks.championship.Some? ==>
            r.picks.championship.value.0 in Entrants(structure.regions) &&
            r.picks.championship.value.1 in Entrants(structure.regions))
      && (r.champion.Some? ==> r.champion.value in Entrants(structure.regions))
  {
    var regions := structure.regions;
    var results := RegionResults(env, regions);
    forall k | 0 <= k < |results| && results[k].1.champ.Some?
      ensures results[k].1.champ.value in Entrants(regions)
    {
      RegionChampionIsEntrant(env, regions[k]);
      var t :| t in regions[k].teams && t.name == results[k].1.champ.value;
    }
    TallyFinalFourWithin(results, Entrants(regions));
  }

  predicate DistinctRegionNames(regions: seq<Region>) {
    forall i, j :: 0 <= i < j < |regions| ==> regions[i].name != regions[j].name
  }

  /**
   * When region names are distinct, every pick of a round has its own key,
   * so no dictionary write replaces another.
   */
  lemma PickKeysDistinct(env: Env, structure: BracketStructure)
    requires DistinctRegionNames(structure.regions)
    ensures var r := Simulate(env, structure);
      DistinctKeys(r.picks.round64) && DistinctKeys(r.picks.round32) && DistinctKeys(r.picks.sweet16)
  {
    var results := RegionResults(env, structure.regions);
    forall k | 0 <= k < |results| ensures KeyedBy(results[k].1, results[k].0) {
      RegionKeys(env, structure.regions[k]);
    }
    TallyKeysDistinct(results);
  }

  /** The four regions of a stored tournament have distinct names. */
  lemma StructureRegionNamesDistinct(year: int, teams: seq<TeamInput>)
    requires StructureOf(year, teams).Success?
    ensures DistinctRegionNames(StructureOf(year, teams).value.regions)
  {
    StructureShape(year, teams);
  }

  // ---------------------------------------------------------------------
  // Chalk picks the higher-rated team all the way through.

  function Em(kenpom: map<string, Rating>, name: string): real {
    GetTeamKenpom(name, kenpom).adjEm
  }

  /** Every side in `s` is rated no higher than `x`. */
  predicate Dominates(kenpom: map<string, Rating>, x: string, s: seq<Side>) {
    forall i :: 0 <= i < |s| ==> Em(kenpom, s[i].name) <= Em(kenpom, x)
  }

  lemma ChalkWinnerDominates(env: Env, a: Side, b: Side)
    requires env.strategy == "chalk"
    ensures Dominates(env.kenpom, Play(env, a, b), [a, b])
  {
  }

  /** Whoever outrates every winner of a chalk round outrates every side that played in it. */
  lemma ChalkRoundDominance(env: Env, s: seq<Side>, x: string)
    requires env.strategy == "chalk" && |s| % 2 == 0
    requires Dominates(env.kenpom, x, RoundWinners(env, s))
    ensures Dominates(env.kenpom, x, s)
  {
    forall i | 0 <= i < |s| ensures Em(env.kenpom, s[i].name) <= Em(env.kenpom, x) {
      var j := i / 2;
      ChalkWinnerDominates(env, s[2 * j], s[2 * j + 1]);
      assert RoundWinners(env, s)[j] == GameWinner(env, s, j);
    }
  }

  /** The winner of the last game of a chalk round of two outrates both sides. */
  lemma ChalkFinalDominance(env: Env, w: seq<Side>)
    requires env.strategy == "chalk" && |w| == 2
    ensures Dominates(env.kenpom, Play(env, w[0], w[1]), w)
  {
    ChalkWinnerDominates(env, w[0], w[1]);
    assert [w[0], w[1]] == w;
  }

  /** Three chalk rounds and a final on sixteen sides: the last winner outrates the whole field. */
  lemma ChalkFieldChampion(env: Env, field: seq<Side>)
    requires env.strategy == "chalk" && |field| == 16
    ensures var w16 := RoundWinners(env, RoundWinners(env, RoundWinners(env, field)));
      |w16| == 2 && Dominates(env.kenpom, Play(env, w16[0], w16[1]), field)
  {
    var w64 := RoundWinners(env, field);
    var w32 := RoundWinners(env, w64);
    var w16 := RoundWinners(env, w32);
    var champ := Play(env, w16[0], w16[1]);
    ChalkFinalDominance(env, w16);
    ChalkRoundDominance(env, w32, champ);
    ChalkRoundDominance(env, w64, champ);
    ChalkRoundDominance(env, field, champ);
  }

  lemma ChalkRegionChampion(env: Env, region: Region)
    requires env.strategy == "chalk" && |region.teams| == 16
    ensures PlayRegion(env, region).champ.Some?
    ensures forall t :: t in region.teams ==> Em(env.kenpom, t.name) <= Em(env.kenpom, PlayRegion(env, region).champ.value)
  {
    var sorted := SortBySeed(region.teams);
    var field := AsSides(sorted);
    ChalkFieldChampion(env, field);
    var champ := PlayRegion(env, region).champ.value;
    SortBySeedPermutes(region.teams);
    forall t | t in region.teams ensures Em(env.kenpom, t.name) <= Em(env.kenpom, champ) {
      assert t in multiset(sorted);
      var i :| 0 <= i < |sorted| && sorted[i] == t;
      assert field[i].name == t.name;
    }
  }


  lemma ChalkBeatsBoth(env: Env, a: Side, b: Side)
    requires env.strategy == "chalk"
    ensures Em(env.kenpom, a.name) <= Em(env.kenpom, Play(env, a, b))
    ensures Em(env.kenpom, b.name) <= Em(env.kenpom, Play(env, a, b))
  {
  }

  /** Under chalk the champion outrates every member of a Final Four of four. */
  lemma ChalkFinalRounds(env: Env, structure: BracketStructure)
    requires env.strategy == "chalk"
    ensures var r := Simulate(env, structure);
      r.champion.Some? ==> forall k :: 0 <= k < 4 ==> Em(env.kenpom, r.finalFour[k]) <= Em(env.kenpom, r.champion.value)
  {
    var r := Simulate(env, structure);
    if r.champion.Some? {
      var ff := r.finalFour;
      var sf1 := Play(env, Side(ff[0], None), Side(ff[1], None));
      var sf2 := Play(env, Side(ff[2], None), Side(ff[3], None));
      var champ := Play(env, Side(sf1, None), Side(sf2, None));
      assert r.champion == Some(champ);
      ChalkBeatsBoth(env, Side(ff[0], None), Side(ff[1], None));
      ChalkBeatsBoth(env, Side(ff[2], None), Side(ff[3], None));
      ChalkBeatsBoth(env, Side(sf1, None), Side(sf2, None));
    }
  }

  /** Under chalk the champion of a full field is rated at least as high as every entered team. */
  lemma ChalkChampionIsTopRated(kenpom: map<string, Rating>, draw: (Side, Side) -> Chance, structure: BracketStructure)
    requires FullField(structure)
    ensures var r := Simulate(Env(kenpom, "chalk", draw), structure);
      && r.champion.Some?
      && forall k, t :: 0 <= k < 4 && t in structure.regions[k].teams ==> Em(kenpom, t.name) <= Em(kenpom, r.champion.value)
  {
    var env := Env(kenpom, "chalk", draw);
    var r := Simulate(env, structure);
    FullBracket(env, structure);
    FinalFourInRegionOrder(env, structure);
    ChalkFinalRounds(env, structure);
    forall k, t | 0 <= k < 4 && t in structure.regions[k].teams ensures Em(kenpom, t.name) <= Em(kenpom, r.champion.value) {
      ChalkRegionChampion(env, structure.regions[k]);
      assert Em(kenpom, t.name) <= Em(kenpom, r.finalFour[k]);
    }
  }

  // ---------------------------------------------------------------------
  // Chalk ignores the draw, so every chalk bracket is the same bracket.

  predicate ChalkPair(e1: Env, e2: Env) {
    e1.kenpom == e2.kenpom && e1.strategy == "chalk" && e2.strategy == "chalk"
  }

  lemma ChalkRoundSame(e1: Env, e2: Env, region: string, s: seq<Side>)
    requires ChalkPair(e1, e2)
    ensures RoundWinners(e1, s) == RoundWinners(e2, s)
    ensures RoundPicks(region, e1, s) == RoundPicks(region, e2, s)
  {
    forall j | 0 <= j < |s| / 2 ensures GameWinner(e1, s, j) == GameWinner(e2, s, j) {
      ChalkIsDeterministic(s[2 * j], s[2 * j + 1], e1.kenpom, e1.draw(s[2 * j], s[2 * j + 1]), e2.draw(s[2 * j], s[2 * j + 1]));
    }
  }

  lemma {:induction false} ChalkUpsetsSame(e1: Env, e2: Env, teams: seq<Team>, n: nat)
    requires ChalkPair(e1, e2) && 2 * n <= |teams|
    ensures UpsetCount(e1, teams, n) == UpsetCount(e2, teams, n)
    decreases n
  {
    if n > 0 {
      ChalkUpsetsSame(e1, e2, teams, n - 1);
      var a, b := AsSide(teams[2 * n - 2]), AsSide(teams[2 * n - 1]);
      ChalkIsDeterministic(a, b, e1.kenpom, e1.draw(a, b), e2.draw(a, b));
    }
  }

  lemma ChalkRegionSame(e1: Env, e2: Env, region: Region)
    requires ChalkPair(e1, e2)
    ensures PlayRegion(e1, region) == PlayRegion(e2, region)
  {
    var field := AsSides(SortBySeed(region.teams));
    ChalkRoundSame(e1, e2, region.name, field);
    var w64 := RoundWinners(e1, field);
    ChalkRoundSame(e1, e2, region.name, w64);
    var w32 := RoundWinners(e1, w64);
    ChalkRoundSame(e1, e2, region.name, w32);
    var w16 := RoundWinners(e1, w32);
    if |w16| >= 2 {
      ChalkIsDeterministic(w16[0], w16[1], e1.kenpom, e1.draw(w16[0], w16[1]), e2.draw(w16[0], w16[1]));
    }
    ChalkUpsetsSame(e1, e2, SortBySeed(region.teams), |region.teams| / 2);
  }

  /** Chalk brackets do not depend on the random draw: two chalk runs on the same ratings are equal. */
  lemma ChalkIgnoresDraw(kenpom: map<string, Rating>, d1: (Side, Side) -> Chance, d2: (Side, Side) -> Chance,
                         structure: BracketStructure)
    ensures Simulate(Env(kenpom, "chalk", d1), structure) == Simulate(Env(kenpom, "chalk", d2), structure)
  {
    var e1, e2 := Env(kenpom, "chalk", d1), Env(kenpom, "chalk", d2);
    forall k | 0 <= k < |structure.regions| ensures PlayRegion(e1, structure.regions[k]) == PlayRegion(e2, structure.regions[k]) {
      ChalkRegionSame(e1, e2, structure.regions[k]);
    }
    assert RegionResults(e1, structure.regions) == RegionResults(e2, structure.regions);
    var ff := TallyOf(RegionResults(e1, structure.regions)).final4;
    if |ff| >= 4 {
      var a, b := Side(ff[0], None), Side(ff[1], None);
      var c, d := Side(ff[2], None), Side(ff[3], None);
      ChalkIsDeterministic(a, b, kenpom, d1(a, b), d2(a, b));
      ChalkIsDeterministic(c, d, kenpom, d1(c, d), d2(c, d));
      var x, y := Side(Play(e1, a, b), None), Side(Play(e1, c, d), None);
      ChalkIsDeterministic(x, y, kenpom, d1(x, y), d2(x, y));
    }
  }
}
