/**
 * `generate_brackets`: 100 value, 50 chalk and 50 chaos brackets, each
 * simulated on the stored tournament with its KenPom ratings, stored as a
 * `GeneratedBracket` row and summarised for the response.
 */
module Batch {
  import opened Wrappers
  import opened Tournament
  import opened Predictor
  import opened Simulator

  /** The summary dictionary returned for one bracket. */
  datatype Summary = Summary(id: nat, strategy: string, champion: Option<string>, finalFour: seq<string>,
                             expectedScore: int, upsetCount: nat)

  /** A `GeneratedBracket` row handed to the database session. */
  datatype StoredBracket = StoredBracket(tournamentId: int, picks: BracketPicks, strategy: string,
                                         champion: Option<string>, finalFour: seq<string>,
                                         expectedScore: int, upsetCount: nat, poolTag: string)

  datatype BatchError = TournamentNotFound(id: int)

  /** The draw oracle of the whole batch: bracket position, then the two teams of a game. */
  type Draws = (nat, Side, Side) -> Chance

  /** The KenPom dictionary built from the rating rows: a later row for a name replaces an earlier one. */
  function KenpomDict(rows: seq<(string, Rating)>): (m: map<string, Rating>)
    ensures forall name :: name in m <==> exists k :: 0 <= k < |rows| && rows[k].0 == name
  {
    if rows == [] then map[]
    else
      var last := rows[|rows| - 1];
      var m := KenpomDict(rows[..|rows| - 1])[last.0 := last.1];
      assert forall k :: 0 <= k < |rows| - 1 ==> rows[..|rows| - 1][k] == rows[k];
      m
  }

  /** The rating kept for a name is that of its last row. */
  lemma {:induction false} KenpomDictLastWins(rows: seq<(string, Rating)>, k: nat)
    requires k < |rows|
    requires forall j :: k < j < |rows| ==> rows[j].0 != rows[k].0
    ensures KenpomDict(rows)[rows[k].0] == rows[k].1
    decreases |rows|
  {
    if k < |rows| - 1 {
      var init := rows[..|rows| - 1];
      assert init[k] == rows[k];
      KenpomDictLastWins(init, k);
    }
  }

  /** The strategy of the bracket at position `n` of the batch. */
  function StrategyFor(n: nat): string {
    if n < 100 then "value" else if n < 150 then "chalk" else "chaos"
  }

  function PoolTagFor(n: nat): string {
    if n < 100 then (if n % 2 == 0 then "big_pool" else "paid_pool")
    else if n < 150 then "free_pool"
    else "big_pool"
  }

  function DrawFor(draws: Draws, n: nat): (Side, Side) -> Chance {
    (a: Side, b: Side) => draws(n, a, b)
  }

  function ResultAt(structure: BracketStructure, kenpom: map<string, Rating>, draws: Draws, n: nat): SimResult {
    Simulate(Env(kenpom, StrategyFor(n), DrawFor(draws, n)), structure)
  }

  function SummaryAt(structure: BracketStructure, kenpom: map<string, Rating>, draws: Draws, n: nat): Summary {
    var r := ResultAt(structure, kenpom, draws, n);
    Summary(n + 1, StrategyFor(n), r.champion, r.finalFour, r.expectedScore, r.upsetCount)
  }

  function StoredAt(tournamentId: int, structure: BracketStructure, kenpom: map<string, Rating>, draws: Draws, n: nat): StoredBracket {
    var r := ResultAt(structure, kenpom, draws, n);
    StoredBracket(tournamentId, r.picks, StrategyFor(n), r.champion, r.finalFour, r.expectedScore, r.upsetCount, PoolTagFor(n))
  }

  /** The batch as laid out: summaries and stored rows for positions `0 .. 199`. */
  predicate LaidOut(tournamentId: int, structure: BracketStructure, kenpom: map<string, Rating>, draws: Draws,
                    summaries: seq<Summary>, stored: seq<StoredBracket>, upTo: nat)
  {
    && |summaries| == |stored| == upTo
    && forall n :: 0 <= n < upTo ==>
         summaries[n] == SummaryAt(structure, kenpom, draws, n) &&
         stored[n] == StoredAt(tournamentId, structure, kenpom, draws, n)
  }

  /** One pass of a strategy loop: simulate bracket `n` and record its row and summary. */
  method AddBracket(tournamentId: int, structure: BracketStructure, kenpom: map<string, Rating>, draws: Draws,
                    summaries: seq<Summary>, stored: seq<StoredBracket>, strategy: string, poolTag: string)
    returns (summaries': seq<Summary>, stored': seq<StoredBracket>)
    requires LaidOut(tournamentId, structure, kenpom, draws, summaries, stored, |summaries|)
    requires strategy == StrategyFor(|summaries|) && poolTag == PoolTagFor(|summaries|)
    ensures LaidOut(tournamentId, structure, kenpom, draws, summaries', stored', |summaries| + 1)
  {
    var n := |summaries|;
    var result := SimulateBracket(structure, kenpom, strategy, DrawFor(draws, n));
    assert result == ResultAt(structure, kenpom, draws, n);
    stored' := stored + [StoredBracket(tournamentId, result.picks, strategy, result.champion, result.finalFour,
                                       result.expectedScore, result.upsetCount, poolTag)];
    summaries' := summaries + [Summary(n + 1, strategy, result.champion, result.finalFour,
                                       result.expectedScore, result.upsetCount)];
    LaidOutSnoc(tournamentId, structure, kenpom, draws, summaries, stored);
  }

  lemma LaidOutSnoc(tournamentId: int, structure: BracketStructure, kenpom: map<string, Rating>, draws: Draws,
                    summaries: seq<Summary>, stored: seq<StoredBracket>)
    requires LaidOut(tournamentId, structure, kenpom, draws, summaries, stored, |summaries|)
    ensures var n := |summaries|;
      LaidOut(tournamentId, structure, kenpom, draws, summaries + [SummaryAt(structure, kenpom, draws, n)],
              stored + [StoredAt(tournamentId, structure, kenpom, draws, n)], n + 1)
  {
  }

  /**
   * `generate_brackets`, given the looked-up tournament and the tournament's
   * KenPom rows. Every bracket is simulated on the dictionary built from the
   * rows. The requested `count` is ignored: a found tournament always yields
   * 200 brackets.
   */
  method GenerateBrackets(tournamentId: int, tournament: Option<BracketStructure>, rows: seq<(string, Rating)>,
                          count: int, draws: Draws)
    returns (r: Result<seq<Summary>, BatchError>, stored: seq<StoredBracket>)
    ensures tournament.None? ==> r == Failure(TournamentNotFound(tournamentId)) && stored == []
    ensures tournament.Some? ==> r.Success? && LaidOut(tournamentId, tournament.value, KenpomDict(rows), draws, r.value, stored, 200)
    ensures tournament.Some? ==> Tagged(r.value, stored)
  {
    if tournament.None? {
      return Failure(TournamentNotFound(tournamentId)), [];
    }
    var kenpom := KenpomDict(rows);
    var structure := tournament.value;
    var brackets: seq<Summary> := [];
    stored := [];
    for i := 0 to 100
      invariant LaidOut(tournamentId, structure, kenpom, draws, brackets, stored, i)
    {
      brackets, stored := AddBracket(tournamentId, structure, kenpom, draws, brackets, stored,
                                     "value", if i % 2 == 0 then "big_pool" else "paid_pool");
    }
    for i := 0 to 50
      invariant LaidOut(tournamentId, structure, kenpom, draws, brackets, stored, 100 + i)
    {
      brackets, stored := AddBracket(tournamentId, structure, kenpom, draws, brackets, stored, "chalk", "free_pool");
    }
    for i := 0 to 50
      invariant LaidOut(tournamentId, structure, kenpom, draws, brackets, stored, 150 + i)
    {
      brackets, stored := AddBracket(tournamentId, structure, kenpom, draws, brackets, stored, "chaos", "big_pool");
    }
    LaidOutTagged(tournamentId, structure, kenpom, draws, brackets, stored);
    r := Success(brackets);
  }

  // ---------------------------------------------------------------------
  // The layout of a batch.

  function CountStrategy(s: seq<Summary>, strategy: string): nat {
    if s == [] then 0
    else CountStrategy(s[..|s| - 1], strategy) + (if s[|s| - 1].strategy == strategy then 1 else 0)
  }

  lemma {:induction false} StrategyPrefixCounts(summaries: seq<Summary>, m: nat)
    requires m <= |summaries| <= 200
    requires forall n :: 0 <= n < |summaries| ==> summaries[n].strategy == StrategyFor(n)
    ensures CountStrategy(summaries[..m], "value") == (if m < 100 then m else 100)
    ensures CountStrategy(summaries[..m], "chalk") == (if m < 100 then 0 else if m < 150 then m - 100 else 50)
    ensures CountStrategy(summaries[..m], "chaos") == (if m < 150 then 0 else m - 150)
    decreases m
  {
    if m > 0 {
      StrategyPrefixCounts(summaries, m - 1);
      assert summaries[..m][..m - 1] == summaries[..m - 1];
    }
  }

  /** The id, strategy and pool tag of every position of a 200-bracket batch. */
  predicate Tagged(summaries: seq<Summary>, stored: seq<StoredBracket>) {
    && |summaries| == |stored| == 200
    && forall n :: 0 <= n < 200 ==>
         && summaries[n].id == n + 1 && summaries[n].strategy == StrategyFor(n)
         && stored[n].strategy == StrategyFor(n) && stored[n].poolTag == PoolTagFor(n)
  }

  lemma LaidOutTagged(tournamentId: int, structure: BracketStructure, kenpom: map<string, Rating>, draws: Draws,
                      summaries: seq<Summary>, stored: seq<StoredBracket>)
    requires LaidOut(tournamentId, structure, kenpom, draws, summaries, stored, 200)
    ensures Tagged(summaries, stored)
  {
    forall n | 0 <= n < 200
      ensures summaries[n].id == n + 1 && summaries[n].strategy == StrategyFor(n)
      ensures stored[n].strategy == StrategyFor(n) && stored[n].poolTag == PoolTagFor(n)
    {
      assert summaries[n] == SummaryAt(structure, kenpom, draws, n);
      assert stored[n] == StoredAt(tournamentId, structure, kenpom, draws, n);
    }
  }

  /**
   * A generated batch holds ids 1 to 200 in order, and 100 value, 50 chalk
   * and 50 chaos brackets.
   */
  lemma BatchLayout(summaries: seq<Summary>, stored: seq<StoredBracket>)
    requires Tagged(summaries, stored)
    ensures forall n :: 0 <= n < 200 ==> summaries[n].id == n + 1 && stored[n].strategy == summaries[n].strategy
    ensures CountStrategy(summaries, "value") == 100
    ensures CountStrategy(summaries, "chalk") == 50
    ensures CountStrategy(summaries, "chaos") == 50
  {
    StrategyPrefixCounts(summaries, 200);
    assert summaries[..200] == summaries;
  }

  /**
   * Value brackets alternate between the big pool (odd ids) and the paid
   * pool (even ids); chalk brackets go to the free pool and chaos brackets
   * to the big pool.
   */
  lemma BatchPoolTags(summaries: seq<Summary>, stored: seq<StoredBracket>)
    requires Tagged(summaries, stored)
    ensures forall n :: 0 <= n < 200 ==>
      (summaries[n].strategy == "value" ==> stored[n].poolTag == (if summaries[n].id % 2 == 1 then "big_pool" else "paid_pool")) &&
      (summaries[n].strategy == "chalk" ==> stored[n].poolTag == "free_pool") &&
      (summaries[n].strategy == "chaos" ==> stored[n].poolTag == "big_pool")
  {
    forall n | 0 <= n < 200
      ensures summaries[n].strategy == "value" ==> stored[n].poolTag == (if summaries[n].id % 2 == 1 then "big_pool" else "paid_pool")
      ensures summaries[n].strategy == "chalk" ==> stored[n].poolTag == "free_pool"
      ensures summaries[n].strategy == "chaos" ==> stored[n].poolTag == "big_pool"
    {
      assert (n + 1) % 2 == 1 <==> n % 2 == 0;
    }
  }

  /** The 50 chalk brackets of a batch are one and the same bracket. */
  lemma ChalkBracketsIdentical(tournamentId: int, structure: BracketStructure, kenpom: map<string, Rating>, draws: Draws,
                               summaries: seq<Summary>, stored: seq<StoredBracket>, n: nat, m: nat)
    requires LaidOut(tournamentId, structure, kenpom, draws, summaries, stored, 200)
    requires 100 <= n < 150 && 100 <= m < 150
    ensures stored[n] == stored[m]
    ensures summaries[n].champion == summaries[m].champion && summaries[n].finalFour == summaries[m].finalFour
  {
    ChalkIgnoresDraw(kenpom, DrawFor(draws, n), DrawFor(draws, m), structure);
  }

  /** Every bracket of a batch on a full field has a champion, entered in the tournament. */
  lemma BatchChampions(tournamentId: int, structure: BracketStructure, kenpom: map<string, Rating>, draws: Draws,
                       summaries: seq<Summary>, stored: seq<StoredBracket>, n: nat)
    requires LaidOut(tournamentId, structure, kenpom, draws, summaries, stored, 200)
    requires FullField(structure) && n < 200
    ensures summaries[n].champion.Some? && summaries[n].champion.value in Entrants(structure.regions)
    ensures |summaries[n].finalFour| == 4 && 160 <= summaries[n].expectedScore <= 320
  {
    var env := Env(kenpom, StrategyFor(n), DrawFor(draws, n));
    FullBracket(env, structure);
    ChampionIsEntrant(env, structure);
  }
}
