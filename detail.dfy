/**
 * The bracket detail view: the heading, the Final Four, one card per
 * non-empty round in a fixed order and the championship card. Rendering
 * is reduced to the texts and lists the view shows.
 */
module Detail {
  import opened Wrappers
  import opened Text
  import opened Records

  /** A rendered round: its title and its `[key, value]` pick list. */
  datatype RoundCard = RoundCard(title: string, picks: seq<(string, string)>)

  datatype ChampionshipCard = ChampionshipCard(matchup: string, winner: string)

  datatype DetailView = DetailView(heading: string, finalFour: seq<string>, rounds: seq<RoundCard>,
                                   championship: Option<ChampionshipCard>)

  /** The label of the `i`-th element of an array round. */
  function GameLabel(i: nat): string {
    "Game " + NatToString(i + 1)
  }

  /** `picksList`: an object's entries in insertion order, or an array's elements labelled "Game 1", "Game 2", .... */
  function PicksList(v: RoundValue): (r: seq<(string, string)>)
    ensures v.Obj? ==> r == v.entries
    ensures v.Arr? ==> |r| == |v.items| && forall i :: 0 <= i < |r| ==> r[i] == (GameLabel(i), v.items[i])
  {
    match v
    case Obj(es) => es
    case Arr(items) => seq(|items|, i requires 0 <= i < |items| => (GameLabel(i), items[i]))
  }

  /** `renderRound`: nothing for an absent round or an empty pick list. */
  function RenderRound(title: string, round: Option<RoundValue>): (card: Option<RoundCard>)
    ensures card.Some? <==> round.Some? && |PicksList(round.value)| > 0
    ensures card.Some? ==> card.value.title == title && card.value.picks == PicksList(round.value)
  {
    if round.None? then None
    else
      var list := PicksList(round.value);
      if |list| == 0 then None else Some(RoundCard(title, list))
  }

  /** The labels of an array round are pairwise distinct (they are the list's React keys). */
  lemma GameLabelsDistinct(i: nat, j: nat)
    requires i != j
    ensures GameLabel(i) != GameLabel(j)
  {
    var pi, pj := NatToString(i + 1), NatToString(j + 1);
    assert GameLabel(i)[5..] == pi && GameLabel(j)[5..] == pj;
    assert DigitsValue(pi) != DigitsValue(pj);
  }

  function Present(cards: seq<Option<RoundCard>>): (r: seq<RoundCard>)
    ensures |r| <= |cards|
  {
    if cards == [] then []
    else (if cards[0].Some? then [cards[0].value] else []) + Present(cards[1..])
  }

  const RoundTitles: seq<string> := ["Round of 64", "Round of 32", "Sweet 16", "Elite 8"]

  /** The round cards in the order Round of 64, Round of 32, Sweet 16, Elite 8, each only when it renders. */
  function RoundCards(p: PickSet): seq<RoundCard> {
    Present([RenderRound(RoundTitles[0], p.round64), RenderRound(RoundTitles[1], p.round32),
             RenderRound(RoundTitles[2], p.sweet16), RenderRound(RoundTitles[3], p.elite8)])
  }

  /** The championship card: the array's entries joined by " vs ", or a fixed text for an object. */
  function ChampionshipView(c: Option<RoundValue>, champion: Option<string>): (card: Option<ChampionshipCard>)
    ensures card.Some? <==> c.Some?
    ensures card.Some? ==> card.value.winner == "Winner: " + champion.GetOr("")
    ensures card.Some? && c.value.Obj? ==> card.value.matchup == "Championship matchup"
  {
    match c
    case None => None
    case Some(Arr(items)) => Some(ChampionshipCard(Join(items, " vs "), "Winner: " + champion.GetOr("")))
    case Some(Obj(_)) => Some(ChampionshipCard("Championship matchup", "Winner: " + champion.GetOr("")))
  }

  function Heading(b: BracketRecord): string {
    "Bracket #" + IntToString(b.id) + " - " + ToUpper(b.strategy)
  }

  /** The view of a record; a record without `picks` makes the view throw. */
  function View(b: BracketRecord): (r: Result<DetailView, string>)
    ensures r.Success? <==> b.picks.Some?
    ensures r.Success? ==> r.value.heading == Heading(b) && r.value.finalFour == b.finalFour
    ensures r.Success? ==> |r.value.rounds| <= 4
    ensures r.Success? ==> r.value.rounds == RoundCards(b.picks.value)
    ensures r.Success? ==> r.value.championship == ChampionshipView(b.picks.value.championship, b.champion)
  {
    match b.picks
    case None => Failure("TypeError: picks is null")
    case Some(p) => Success(DetailView(Heading(b), b.finalFour, RoundCards(p), ChampionshipView(p.championship, b.champion)))
  }

  /** Rounds with picks all show, in the order Round of 64, Round of 32, Sweet 16, Elite 8. */
  lemma FullRoundsInOrder(p: PickSet)
    requires p.round64.Some? && |PicksList(p.round64.value)| > 0
    requires p.round32.Some? && |PicksList(p.round32.value)| > 0
    requires p.sweet16.Some? && |PicksList(p.sweet16.value)| > 0
    requires p.elite8.Some? && |PicksList(p.elite8.value)| > 0
    ensures |RoundCards(p)| == 4
    ensures forall k :: 0 <= k < 4 ==> RoundCards(p)[k].title == RoundTitles[k]
  {
    var cards := [RenderRound(RoundTitles[0], p.round64), RenderRound(RoundTitles[1], p.round32),
                  RenderRound(RoundTitles[2], p.sweet16), RenderRound(RoundTitles[3], p.elite8)];
    PresentAllSome(cards);
  }

  lemma {:induction false} PresentAllSome(cards: seq<Option<RoundCard>>)
    requires forall k :: 0 <= k < |cards| ==> cards[k].Some?
    ensures |Present(cards)| == |cards|
    ensures forall k :: 0 <= k < |cards| ==> Present(cards)[k] == cards[k].value
    decreases |cards|
  {
    if cards != [] {
      PresentAllSome(cards[1..]);
    }
  }

  /** A round whose pick list is empty, or that is absent, gets no card: only the other rounds show. */
  lemma {:induction false} PresentSkipsEmpty(cards: seq<Option<RoundCard>>, k: nat)
    requires k < |cards| && cards[k].None?
    ensures Present(cards) == Present(cards[..k]) + Present(cards[k + 1..])
    decreases |cards|
  {
    if k > 0 {
      assert cards[1..][..k - 1] == cards[1..k] && cards[1..][k..] == cards[k + 1..];
      PresentSkipsEmpty(cards[1..], k - 1);
      assert cards[..k][0] == cards[0] && cards[..k][1..] == cards[1..k];
      AppendAssoc(if cards[0].Some? then [cards[0].value] else [], Present(cards[1..k]), Present(cards[k + 1..]));
    } else {
      assert cards[..0] == [] && cards[1..] == cards[k + 1..];
    }
  }

  /**
   * For a record built from a stored bracket with a championship pair, the
   * card shows "A vs B" and the winner line names the champion.
   */
  lemma StoredChampionshipCard(id: int, s: Batch.StoredBracket)
    requires s.picks.championship.Some?
    ensures var b := RecordOf(id, s);
      var card := ChampionshipView(b.picks.value.championship, b.champion);
      card.Some? && card.value.matchup == s.picks.championship.value.0 + " vs " + s.picks.championship.value.1
      && card.value.winner == "Winner: " + s.champion.GetOr("")
  {
    JoinTwo(s.picks.championship.value.0, s.picks.championship.value.1, " vs ");
  }

  /**
   * The heading is "Bracket #", the id written so that it reads back as the
   * id, " - ", then the strategy with its lower-case ASCII letters raised
   * and every other character kept.
   */
  lemma HeadingShape(b: BracketRecord)
    ensures var h, n := Heading(b), |IntToString(b.id)|;
      && |h| == 12 + n + |b.strategy|
      && h[..9] == "Bracket #"
      && IsIntText(h[9..9 + n]) && IntValue(h[9..9 + n]) == b.id
      && h[9 + n..12 + n] == " - "
      && forall k :: 0 <= k < |b.strategy| ==>
           if 'a' <= b.strategy[k] <= 'z' then h[12 + n + k] as int == b.strategy[k] as int - 32
           else h[12 + n + k] == b.strategy[k]
  {
    var id := IntToString(b.id);
    var h := Heading(b);
    assert h[9..9 + |id|] == id;
    assert h[12 + |id|..] == ToUpper(b.strategy);
    IntToStringRoundTrip(b.id);
  }
}
