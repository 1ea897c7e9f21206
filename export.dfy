/**
 * The export serialisers: the readable text block of one bracket, the text
 * report over all brackets, the fixed-column CSV summary and the JSON
 * envelope. Template literals render `null` as "null".
 */
module Export {
  import opened Wrappers
  import opened Text
  import opened Simulator
  import opened Batch
  import opened Records

  const Rule: string := Repeat('=', 80)
  const Dashes: string := Repeat('-', 80)

  /** A possibly-null string inside a template literal or a `+` concatenation. */
  function Show(o: Option<string>): string {
    match o
    case None => "null"
    case Some(s) => s
  }

  /** `Object.entries`: an object's entries, or an array's elements keyed by their indices. */
  function Entries(v: RoundValue): (r: seq<(string, string)>)
    ensures |r| == (if v.Obj? then |v.entries| else |v.items|)
  {
    match v
    case Obj(es) => es
    case Arr(items) => seq(|items|, k requires 0 <= k < |items| => (NatToString(k), items[k]))
  }

  // ---------------------------------------------------------------------
  // The default sort of `Object.entries(...)`: each `[key, value]` pair is
  // compared as the string "key,value", and equal strings keep their order.

  function EntryKey(e: (string, string)): string {
    e.0 + "," + e.1
  }

  predicate EntriesSorted(s: seq<(string, string)>) {
    forall i, j :: 0 <= i < j < |s| ==> LexLe(EntryKey(s[i]), EntryKey(s[j]))
  }

  function InsertEntry(e: (string, string), s: seq<(string, string)>): (r: seq<(string, string)>)
    ensures multiset(r) == multiset(s) + multiset{e}
    ensures |r| == |s| + 1
  {
    if s == [] then [e]
    else if LexLe(EntryKey(e), EntryKey(s[0])) then [e] + s
    else
      var r := [s[0]] + InsertEntry(e, s[1..]);
      assert s == [s[0]] + s[1..];
      r
  }

  function SortEntries(s: seq<(string, string)>): (r: seq<(string, string)>)
    ensures |r| == |s|
  {
    if s == [] then [] else InsertEntry(s[0], SortEntries(s[1..]))
  }

  lemma {:induction false} InsertEntrySorted(e: (string, string), s: seq<(string, string)>)
    requires EntriesSorted(s)
    ensures EntriesSorted(InsertEntry(e, s))
    decreases |s|
  {
    if s != [] && !LexLe(EntryKey(e), EntryKey(s[0])) {
      var tail := InsertEntry(e, s[1..]);
      InsertEntrySorted(e, s[1..]);
      LexLeTotal(EntryKey(e), EntryKey(s[0]));
      HeadBelowInsert(e, s);
      SortedCons(s[0], tail);
    } else if s != [] {
      forall j | 0 <= j < |s| ensures LexLe(EntryKey(e), EntryKey(s[j])) {
        if j > 0 {
          LexLeTransitive(EntryKey(e), EntryKey(s[0]), EntryKey(s[j]));
        }
      }
      SortedCons(e, s);
    }
  }

  /** Sorted entries stay sorted under a new first entry that is at most each of them. */
  lemma SortedCons(x: (string, string), t: seq<(string, string)>)
    requires EntriesSorted(t)
    requires forall j :: 0 <= j < |t| ==> LexLe(EntryKey(x), EntryKey(t[j]))
    ensures EntriesSorted([x] + t)
  {
    var r := [x] + t;
    forall i, j | 0 <= i < j < |r| ensures LexLe(EntryKey(r[i]), EntryKey(r[j])) {
      assert r[j] == t[j - 1];
      if i > 0 {
        assert r[i] == t[i - 1];
      }
    }
  }

  /** The head of sorted entries is at most every entry of the rest with `e` inserted, when it is at most `e`. */
  lemma HeadBelowInsert(e: (string, string), s: seq<(string, string)>)
    requires s != [] && EntriesSorted(s) && LexLe(EntryKey(s[0]), EntryKey(e))
    ensures forall j :: 0 <= j < |InsertEntry(e, s[1..])| ==> LexLe(EntryKey(s[0]), EntryKey(InsertEntry(e, s[1..])[j]))
  {
    var tail := InsertEntry(e, s[1..]);
    forall j | 0 <= j < |tail| ensures LexLe(EntryKey(s[0]), EntryKey(tail[j])) {
      assert tail[j] in multiset(tail);
      assert tail[j] in multiset(s[1..]) + multiset{e};
      if tail[j] != e {
        var m :| 0 <= m < |s[1..]| && s[1..][m] == tail[j];
        assert tail[j] == s[m + 1];
      }
    }
  }

  lemma {:induction false} SortEntriesSorted(s: seq<(string, string)>)
    ensures EntriesSorted(SortEntries(s))
    decreases |s|
  {
    if s != [] {
      SortEntriesSorted(s[1..]);
      InsertEntrySorted(s[0], SortEntries(s[1..]));
    }
  }

  lemma {:induction false} SortEntriesPermutes(s: seq<(string, string)>)
    ensures multiset(SortEntries(s)) == multiset(s)
    decreases |s|
  {
    if s != [] {
      SortEntriesPermutes(s[1..]);
      assert s == [s[0]] + s[1..];
    }
  }

  /** A sorted round lists every entry exactly as often as the round holds it, in "key,value" order. */
  lemma SortedRoundEntries(s: seq<(string, string)>)
    ensures EntriesSorted(SortEntries(s)) && multiset(SortEntries(s)) == multiset(s)
  {
    SortEntriesSorted(s);
    SortEntriesPermutes(s);
  }

  // ---------------------------------------------------------------------
  // `formatBracketReadable`.

  function EntryLine(e: (string, string)): string {
    "  " + e.0 + ": " + e.1
  }

  function EntryLines(es: seq<(string, string)>): (r: seq<string>)
    ensures |r| == |es|
  {
    seq(|es|, k requires 0 <= k < |es| => EntryLine(es[k]))
  }

  /** A section: a dashed rule, the title, another rule, the body and a blank line. */
  function Section(title: string, body: seq<string>): seq<string> {
    [Dashes, title, Dashes] + body + [""]
  }

  /** A round section, present exactly when the round is; three of the rounds are sorted. */
  function RoundLines(round: Option<RoundValue>, title: string, sorted: bool): seq<string> {
    match round
    case None => []
    case Some(v) => Section(title, EntryLines(if sorted then SortEntries(Entries(v)) else Entries(v)))
  }

  function FinalFourLine(k: nat, team: string): string {
    "  " + NatToString(k + 1) + ". " + team
  }

  function FinalFourLines(ff: seq<string>): (r: seq<string>)
    ensures |r| == |ff|
  {
    seq(|ff|, k requires 0 <= k < |ff| => FinalFourLine(k, ff[k]))
  }

  function MatchupLines(c: RoundValue, champion: Option<string>): seq<string> {
    if c.Arr? && |c.items| >= 2 then ["  " + c.items[0] + " vs " + c.items[1], "  WINNER: " + Show(champion)] else []
  }

  function ChampionshipLines(c: Option<RoundValue>, champion: Option<string>): seq<string> {
    if c.Some? then Section("CHAMPIONSHIP GAME", MatchupLines(c.value, champion)) else []
  }

  function HeadingLine(b: BracketRecord): string {
    "BRACKET #" + IntToString(b.id) + " - " + ToUpper(b.strategy) + " STRATEGY"
  }

  function SummaryLines(b: BracketRecord): seq<string> {
    [Rule, HeadingLine(b), Rule,
     "Expected Score: " + IntToString(b.expectedScore),
     "Upset Count: " + IntToString(b.upsetCount),
     "Pool Tag: " + Show(b.poolTag),
     "Champion: " + Show(b.champion),
     ""]
  }

  /** Every line of a block except the final "\n\n" entry; missing picks count as an empty object. */
  function BlockLines(b: BracketRecord): seq<string> {
    var picks := b.picks.GetOr(NoPicks);
    SummaryLines(b)
    + Section("FINAL FOUR", FinalFourLines(b.finalFour))
    + ChampionshipLines(picks.championship, b.champion)
    + RoundLines(picks.elite8, "ELITE 8 (Regional Championships)", false)
    + RoundLines(picks.sweet16, "SWEET 16", true)
    + RoundLines(picks.round32, "ROUND OF 32", true)
    + RoundLines(picks.round64, "ROUND OF 64 (First Round)", true)
  }

  function ReadableLines(b: BracketRecord): seq<string> {
    BlockLines(b) + ["\n\n"]
  }

  function FormatReadable(b: BracketRecord): string {
    Join(ReadableLines(b), "\n")
  }

  /** One `forEach` over entries, pushing a line per entry. */
  method PushEntries(output: seq<string>, entries: seq<(string, string)>) returns (out: seq<string>)
    ensures out == output + EntryLines(entries)
  {
    out := output;
    for k := 0 to |entries|
      invariant out == output + EntryLines(entries[..k])
    {
      assert EntryLines(entries[..k + 1]) == EntryLines(entries[..k]) + [EntryLine(entries[k])];
      out := out + [EntryLine(entries[k])];
    }
    assert entries[..|entries|] == entries;
  }

  /** One `if (picks.<round>)` block. */
  method PushRound(output: seq<string>, round: Option<RoundValue>, title: string, sorted: bool) returns (out: seq<string>)
    ensures out == output + RoundLines(round, title, sorted)
  {
    out := output;
    if round.Some? {
      out := out + [Dashes, title, Dashes];
      var entries := Entries(round.value);
      if sorted {
        entries := SortEntries(entries);
      }
      out := PushEntries(out, entries);
      out := out + [""];
      AppendFramed(output, [Dashes, title, Dashes], EntryLines(entries), [""]);
    }
  }

  method PushFinalFour(output: seq<string>, ff: seq<string>) returns (out: seq<string>)
    ensures out == output + Section("FINAL FOUR", FinalFourLines(ff))
  {
    out := output + [Dashes, "FINAL FOUR", Dashes];
    for i := 0 to |ff|
      invariant out == output + [Dashes, "FINAL FOUR", Dashes] + FinalFourLines(ff[..i])
    {
      assert FinalFourLines(ff[..i + 1]) == FinalFourLines(ff[..i]) + [FinalFourLine(i, ff[i])];
      out := out + [FinalFourLine(i, ff[i])];
    }
    assert ff[..|ff|] == ff;
    out := out + [""];
    AppendFramed(output, [Dashes, "FINAL FOUR", Dashes], FinalFourLines(ff), [""]);
  }

  method PushChampionship(output: seq<string>, c: Option<RoundValue>, champion: Option<string>) returns (out: seq<string>)
    ensures out == output + ChampionshipLines(c, champion)
  {
    out := output;
    if c.Some? {
      out := out + [Dashes, "CHAMPIONSHIP GAME", Dashes];
      var champ := c.value;
      if champ.Arr? && |champ.items| >= 2 {
        out := out + ["  " + champ.items[0] + " vs " + champ.items[1]];
        out := out + ["  WINNER: " + Show(champion)];
      }
      assert out == output + [Dashes, "CHAMPIONSHIP GAME", Dashes] + MatchupLines(champ, champion);
      out := out + [""];
      AppendFramed(output, [Dashes, "CHAMPIONSHIP GAME", Dashes], MatchupLines(champ, champion), [""]);
    }
  }

  /** `formatBracketReadable`. */
  method FormatBracketReadable(b: BracketRecord) returns (text: string)
    ensures text == FormatReadable(b)
  {
    var picks := b.picks.GetOr(NoPicks);
    var output: seq<string> := [];
    output := output + [Rule, HeadingLine(b), Rule];
    output := output + ["Expected Score: " + IntToString(b.expectedScore)];
    output := output + ["Upset Count: " + IntToString(b.upsetCount)];
    output := output + ["Pool Tag: " + Show(b.poolTag)];
    output := output + ["Champion: " + Show(b.champion)];
    output := output + [""];
    assert output == SummaryLines(b);
    output := PushFinalFour(output, b.finalFour);
    output := PushChampionship(output, picks.championship, b.champion);
    output := PushRound(output, picks.elite8, "ELITE 8 (Regional Championships)", false);
    output := PushRound(output, picks.sweet16, "SWEET 16", true);
    output := PushRound(output, picks.round32, "ROUND OF 32", true);
    output := PushRound(output, picks.round64, "ROUND OF 64 (First Round)", true);
    assert output == BlockLines(b);
    output := output + ["\n\n"];
    text := Join(output, "\n");
  }

  // ---------------------------------------------------------------------
  // What a block says.

  /** The '=' rule is eighty equals signs. */
  lemma RuleShape()
    ensures |Rule| == 80 && forall k :: 0 <= k < 80 ==> Rule[k] == '='
  {
  }

  /**
   * The summary: the '=' rule, the heading, another rule, then score,
   * upsets, pool tag and champion, and a blank line.
   */
  lemma SummaryContent(b: BracketRecord)
    ensures |SummaryLines(b)| == 8
    ensures SummaryLines(b)[0] == Rule && SummaryLines(b)[2] == Rule
    ensures SummaryLines(b)[1] == "BRACKET #" + IntToString(b.id) + " - " + ToUpper(b.strategy) + " STRATEGY"
    ensures SummaryLines(b)[3] == "Expected Score: " + IntToString(b.expectedScore)
    ensures SummaryLines(b)[4] == "Upset Count: " + IntToString(b.upsetCount)
    ensures SummaryLines(b)[5] == "Pool Tag: " + Show(b.poolTag) && SummaryLines(b)[6] == "Champion: " + Show(b.champion)
    ensures SummaryLines(b)[7] == ""
  {
  }

  /**
   * A block opens with the summary, then the Final Four section with entry
   * `k` on line `11 + k` as `"  <k + 1>. <team>"`, then the championship
   * title when the record has a championship.
   */
  lemma BlockOpening(b: BracketRecord)
    ensures |BlockLines(b)| >= 12 + |b.finalFour|
    ensures BlockLines(b)[..8] == SummaryLines(b)
    ensures BlockLines(b)[9] == "FINAL FOUR"
    ensures forall k :: 0 <= k < |b.finalFour| ==> BlockLines(b)[11 + k] == FinalFourLine(k, b.finalFour[k])
    ensures b.picks.Some? && b.picks.value.championship.Some? ==>
      |BlockLines(b)| >= 16 + |b.finalFour| && BlockLines(b)[13 + |b.finalFour|] == "CHAMPIONSHIP GAME"
  {
    var summary := SummaryLines(b);
    var ff := Section("FINAL FOUR", FinalFourLines(b.finalFour));
    var picks := b.picks.GetOr(NoPicks);
    var champ := ChampionshipLines(picks.championship, b.champion);
    var lines := BlockLines(b);
    LeadingParts(lines, summary, ff, champ,
                 RoundLines(picks.elite8, "ELITE 8 (Regional Championships)", false),
                 RoundLines(picks.sweet16, "SWEET 16", true),
                 RoundLines(picks.round32, "ROUND OF 32", true),
                 RoundLines(picks.round64, "ROUND OF 64 (First Round)", true));
    var n := |b.finalFour|;
    assert |summary| == 8 && |ff| == n + 4;
    FinalFourAt(lines, 11, b.finalFour);
    if b.picks.Some? && b.picks.value.championship.Some? {
      TitleAt(lines, 12 + n, "CHAMPIONSHIP GAME", MatchupLines(picks.championship.value, b.champion));
    }
  }

  /** A Final Four section whose first entry is at line `at`: its title two lines above, and entry `k` at `at + k`. */
  lemma FinalFourAt(lines: seq<string>, at: nat, ff: seq<string>)
    requires 3 <= at && at + |ff| + 1 <= |lines|
    requires lines[at - 3..at + |ff| + 1] == Section("FINAL FOUR", FinalFourLines(ff))
    ensures lines[at - 2] == "FINAL FOUR"
    ensures forall k :: 0 <= k < |ff| ==> lines[at + k] == FinalFourLine(k, ff[k])
  {
    var sec := lines[at - 3..at + |ff| + 1];
    assert lines[at - 2] == sec[1];
    forall k | 0 <= k < |ff| ensures lines[at + k] == FinalFourLine(k, ff[k]) {
      assert lines[at + k] == sec[3 + k];
    }
  }

  /** A section starting at line `start` has its title on the next line. */
  lemma TitleAt(lines: seq<string>, start: nat, title: string, body: seq<string>)
    requires start + |body| + 4 <= |lines|
    requires lines[start..start + |body| + 4] == Section(title, body)
    ensures lines[start + 1] == title
  {
    assert lines[start + 1] == lines[start..start + |body| + 4][1];
  }

  /** The first three parts of a seven-part concatenation, as slices. */
  lemma LeadingParts<T>(lines: seq<T>, a: seq<T>, b: seq<T>, c: seq<T>, r1: seq<T>, r2: seq<T>, r3: seq<T>, r4: seq<T>)
    requires lines == a + b + c + r1 + r2 + r3 + r4
    ensures |lines| >= |a| + |b| + |c|
    ensures lines[..|a|] == a
    ensures lines[|a|..|a| + |b|] == b
    ensures lines[|a| + |b|..|a| + |b| + |c|] == c
  {
    var h := a + b + c;
    assert lines == h + (r1 + r2 + r3 + r4);
    assert lines[..|h|] == h;
  }

  /** The matchup and winner lines appear exactly when the championship is an array of at least two. */
  lemma ChampionshipShown(c: Option<RoundValue>, champion: Option<string>)
    ensures |ChampionshipLines(c, champion)| == (if c.None? then 0 else if c.value.Arr? && |c.value.items| >= 2 then 6 else 4)
    ensures c.Some? && c.value.Arr? && |c.value.items| >= 2 ==>
      ChampionshipLines(c, champion)[3] == "  " + c.value.items[0] + " vs " + c.value.items[1] &&
      ChampionshipLines(c, champion)[4] == "  WINNER: " + Show(champion)
  {
  }

  /** The strings a block is built from hold no line break. */
  predicate Plain(s: string) {
    '\n' !in s
  }

  predicate PlainRound(r: Option<RoundValue>) {
    r.Some? ==> match r.value
      case Obj(es) => forall k :: 0 <= k < |es| ==> Plain(es[k].0) && Plain(es[k].1)
      case Arr(items) => forall k :: 0 <= k < |items| ==> Plain(items[k])
  }

  predicate PlainRecord(b: BracketRecord) {
    && Plain(b.strategy) && Plain(Show(b.poolTag)) && Plain(Show(b.champion))
    && (forall k :: 0 <= k < |b.finalFour| ==> Plain(b.finalFour[k]))
    && var picks := b.picks.GetOr(NoPicks);
       PlainRound(picks.round64) && PlainRound(picks.round32) && PlainRound(picks.sweet16)
       && PlainRound(picks.elite8) && PlainRound(picks.championship)
  }

  predicate PlainLines(lines: seq<string>) {
    forall k :: 0 <= k < |lines| ==> Plain(lines[k])
  }

  lemma RuleIsPlain()
    ensures Plain(Rule) && Plain(Dashes)
  {
  }

  lemma EntriesArePlain(v: RoundValue)
    requires PlainRound(Some(v))
    ensures forall k :: 0 <= k < |Entries(v)| ==> Plain(Entries(v)[k].0) && Plain(Entries(v)[k].1)
  {
    if v.Arr? {
      forall k | 0 <= k < |v.items| ensures Plain(NatToString(k)) {
        DigitsAreNotSeparators(NatToString(k));
      }
    }
  }

  lemma EntryLinesPlain(es: seq<(string, string)>)
    requires forall k :: 0 <= k < |es| ==> Plain(es[k].0) && Plain(es[k].1)
    ensures PlainLines(EntryLines(es))
  {
  }

  lemma SectionPlain(title: string, body: seq<string>)
    requires Plain(title) && PlainLines(body)
    ensures PlainLines(Section(title, body))
  {
    RuleIsPlain();
  }

  lemma PlainLinesConcat(a: seq<string>, b: seq<string>)
    requires PlainLines(a) && PlainLines(b)
    ensures PlainLines(a + b)
  {
  }

  lemma RoundLinesPlain(round: Option<RoundValue>, title: string, sorted: bool)
    requires PlainRound(round) && Plain(title)
    ensures PlainLines(RoundLines(round, title, sorted))
  {
    if round.Some? {
      var es := Entries(round.value);
      EntriesArePlain(round.value);
      var shown := if sorted then SortEntries(es) else es;
      SortEntriesPermutes(es);
      forall k | 0 <= k < |shown| ensures Plain(shown[k].0) && Plain(shown[k].1) {
        assert shown[k] in multiset(es);
        var m :| 0 <= m < |es| && es[m] == shown[k];
      }
      EntryLinesPlain(shown);
      SectionPlain(title, EntryLines(shown));
    }
  }

  lemma LabelledPlain(caption: string, value: string)
    requires Plain(caption) && Plain(value)
    ensures Plain(caption + value)
  {
  }

  lemma HeadingPlain(b: BracketRecord)
    requires Plain(b.strategy)
    ensures Plain(HeadingLine(b))
  {
    IntToStringPlain(b.id);
    ToUpperKeepsNewlines(b.strategy);
  }

  lemma SummaryLinesPlain(b: BracketRecord)
    requires PlainRecord(b)
    ensures PlainLines(SummaryLines(b))
  {
    RuleIsPlain();
    CaptionsPlain();
    HeadingPlain(b);
    IntToStringPlain(b.expectedScore);
    IntToStringPlain(b.upsetCount);
    LabelledPlain("Expected Score: ", IntToString(b.expectedScore));
    LabelledPlain("Upset Count: ", IntToString(b.upsetCount));
    LabelledPlain("Pool Tag: ", Show(b.poolTag));
    LabelledPlain("Champion: ", Show(b.champion));
    PlainEight(Rule, HeadingLine(b), Rule, "Expected Score: " + IntToString(b.expectedScore),
               "Upset Count: " + IntToString(b.upsetCount), "Pool Tag: " + Show(b.poolTag),
               "Champion: " + Show(b.champion), "");
  }

  lemma PlainEight(l0: string, l1: string, l2: string, l3: string, l4: string, l5: string, l6: string, l7: string)
    requires Plain(l0) && Plain(l1) && Plain(l2) && Plain(l3) && Plain(l4) && Plain(l5) && Plain(l6) && Plain(l7)
    ensures PlainLines([l0, l1, l2, l3, l4, l5, l6, l7])
  {
  }


  lemma FinalFourLinesPlain(ff: seq<string>)
    requires forall k :: 0 <= k < |ff| ==> Plain(ff[k])
    ensures PlainLines(Section("FINAL FOUR", FinalFourLines(ff)))
  {
    forall k | 0 <= k < |ff| ensures Plain(FinalFourLine(k, ff[k])) {
      DigitsAreNotSeparators(NatToString(k + 1));
    }
    SectionPlain("FINAL FOUR", FinalFourLines(ff));
  }

  lemma ChampionshipLinesPlain(c: Option<RoundValue>, champion: Option<string>)
    requires PlainRound(c) && Plain(Show(champion))
    ensures PlainLines(ChampionshipLines(c, champion))
  {
    if c.Some? {
      SectionPlain("CHAMPIONSHIP GAME", MatchupLines(c.value, champion));
    }
  }

  lemma TitlesPlain()
    ensures Plain("ELITE 8 (Regional Championships)") && Plain("SWEET 16")
    ensures Plain("ROUND OF 32") && Plain("ROUND OF 64 (First Round)")
  {
  }

  lemma CaptionsPlain()
    ensures Plain("Expected Score: ") && Plain("Upset Count: ") && Plain("Pool Tag: ") && Plain("Champion: ")
  {
  }

  lemma BlockLinesPlain(b: BracketRecord)
    requires PlainRecord(b)
    ensures PlainLines(BlockLines(b))
  {
    TitlesPlain();
    var picks := b.picks.GetOr(NoPicks);
    assert PlainRound(picks.round64) && PlainRound(picks.round32) && PlainRound(picks.sweet16);
    assert PlainRound(picks.elite8) && PlainRound(picks.championship);
    var l1 := SummaryLines(b);
    var l2 := Section("FINAL FOUR", FinalFourLines(b.finalFour));
    var l3 := ChampionshipLines(picks.championship, b.champion);
    var l4 := RoundLines(picks.elite8, "ELITE 8 (Regional Championships)", false);
    var l5 := RoundLines(picks.sweet16, "SWEET 16", true);
    var l6 := RoundLines(picks.round32, "ROUND OF 32", true);
    var l7 := RoundLines(picks.round64, "ROUND OF 64 (First Round)", true);
    SummaryLinesPlain(b);
    FinalFourLinesPlain(b.finalFour);
    ChampionshipLinesPlain(picks.championship, b.champion);
    RoundLinesPlain(picks.elite8, "ELITE 8 (Regional Championships)", false);
    RoundLinesPlain(picks.sweet16, "SWEET 16", true);
    RoundLinesPlain(picks.round32, "ROUND OF 32", true);
    RoundLinesPlain(picks.round64, "ROUND OF 64 (First Round)", true);
    PlainLinesConcat(l1, l2);
    PlainLinesConcat(l1 + l2, l3);
    PlainLinesConcat(l1 + l2 + l3, l4);
    PlainLinesConcat(l1 + l2 + l3 + l4, l5);
    PlainLinesConcat(l1 + l2 + l3 + l4 + l5, l6);
    PlainLinesConcat(l1 + l2 + l3 + l4 + l5 + l6, l7);
  }

  /**
   * A block splits back into its lines: every line of the block, then the
   * three empty strings left by the closing "\n\n" entry.
   */
  lemma FormatReadableLines(b: BracketRecord)
    requires PlainRecord(b)
    ensures Split(FormatReadable(b), '\n') == BlockLines(b) + ["", "", ""]
  {
    BlockLinesPlain(b);
    SplitClosedLines(BlockLines(b));
  }

  /** Lines without breaks, closed by the "\n\n" entry, split back into the lines and three empty strings. */
  lemma SplitClosedLines(body: seq<string>)
    requires PlainLines(body)
    ensures Split(Join(body + ["\n\n"], "\n"), '\n') == body + ["", "", ""]
  {
    var lines := body + ["\n\n"];
    assert lines[..|lines| - 1] == body;
    SplitJoinLast(lines, '\n');
    assert Split("", '\n') == [""];
    assert Split("\n", '\n') == [""] + Split("", '\n');
    assert Split("\n\n", '\n') == [""] + Split("\n", '\n');
  }


  lemma Framed(head: string, mid: string, tail: string)
    ensures (head + mid + tail)[..|head|] == head
    ensures EndsWith(head + mid + tail, tail)
  {
    var t := head + mid + tail;
    assert t[|t| - |tail|..] == tail;
  }

  /** A block opens with the '=' rule and a line break, and closes with three line breaks. */
  lemma BlockDelimited(b: BracketRecord)
    ensures |FormatReadable(b)| >= 81 && FormatReadable(b)[..81] == Rule + "\n"
    ensures EndsWith(FormatReadable(b), "\n\n\n")
  {
    var body := BlockLines(b);
    JoinSnoc(body, "\n\n", "\n");
    var rest := Join(body[1..], "\n");
    assert Join(body, "\n") == Rule + "\n" + rest;
    AppendAssoc(Rule + "\n" + rest, "\n", "\n\n");
    assert "\n" + "\n\n" == "\n\n\n";
    Framed(Rule + "\n", rest, "\n\n\n");
  }


  // ---------------------------------------------------------------------
  // `exportReadableBrackets`: a header and every block in order.

  function ReportHeader(year: int, generatedAt: string, count: nat): string {
    "MARCH MADNESS " + IntToString(year) + " - GENERATED BRACKETS\n"
    + "Generated: " + generatedAt + "\n"
    + "Total Brackets: " + NatToString(count) + "\n"
    + "\n" + Rule + "\n\n"
  }

  /** The blocks of the brackets, one after the other in input order. */
  function ReportBody(brackets: seq<BracketRecord>): string {
    if brackets == [] then ""
    else ReportBody(brackets[..|brackets| - 1]) + FormatReadable(brackets[|brackets| - 1])
  }

  lemma Regroup2(a: string, x: string, y: string)
    ensures a + x + y == a + (x + y)
  {
  }

  /** Appending the block of the next bracket extends the report body by that bracket. */
  lemma BlockAppended(header: string, brackets: seq<BracketRecord>, i: nat, text: string, block: string)
    requires i < |brackets|
    requires text == header + ReportBody(brackets[..i]) && block == FormatReadable(brackets[i])
    ensures text + block == header + ReportBody(brackets[..i + 1])
  {
    ReportBodySnoc(brackets, i);
    Regroup2(header, ReportBody(brackets[..i]), block);
  }

  lemma ReportBodySnoc(brackets: seq<BracketRecord>, i: nat)
    requires i < |brackets|
    ensures ReportBody(brackets[..i + 1]) == ReportBody(brackets[..i]) + FormatReadable(brackets[i])
  {
    var p := brackets[..i + 1];
    assert p[..i] == brackets[..i] && p[i] == brackets[i];
  }

  /** The report text; the local time stamp is a parameter. */
  method ExportReadable(year: int, generatedAt: string, brackets: seq<BracketRecord>) returns (text: string)
    ensures text == ReportHeader(year, generatedAt, |brackets|) + ReportBody(brackets)
  {
    text := "MARCH MADNESS " + IntToString(year) + " - GENERATED BRACKETS\n";
    text := text + "Generated: " + generatedAt + "\n";
    text := text + "Total Brackets: " + NatToString(|brackets|) + "\n";
    text := text + "\n" + Rule + "\n\n";
    assert text == ReportHeader(year, generatedAt, |brackets|);
    text := AppendBlocks(text, brackets);
  }

  /** The `forEach` that appends the block of every bracket, in order. */
  method AppendBlocks(header: string, brackets: seq<BracketRecord>) returns (text: string)
    ensures text == header + ReportBody(brackets)
  {
    text := header;
    BodyBounds(header, brackets);
    for i := 0 to |brackets|
      invariant text == header + ReportBody(brackets[..i])
    {
      var block := FormatBracketReadable(brackets[i]);
      BlockAppended(header, brackets, i, text, block);
      text := text + block;
    }
  }

  lemma BodyBounds(header: string, brackets: seq<BracketRecord>)
    ensures header == header + ReportBody(brackets[..0])
    ensures header + ReportBody(brackets[..|brackets|]) == header + ReportBody(brackets)
  {
    assert brackets[..0] == [];
    assert brackets[..|brackets|] == brackets;
  }


  /**
   * The report body of two lists of brackets is the body of the first
   * followed by the body of the second: blocks keep the input order.
   */
  lemma {:induction false} ReportBodyAppend(a: seq<BracketRecord>, b: seq<BracketRecord>)
    ensures ReportBody(a + b) == ReportBody(a) + ReportBody(b)
    decreases |b|
  {
    if b == [] {
      assert a + b == a;
    } else {
      var init := b[..|b| - 1];
      assert (a + b)[..|a + b| - 1] == a + init;
      ReportBodyAppend(a, init);
      Regroup2(ReportBody(a), ReportBody(init), FormatReadable(b[|b| - 1]));
    }
  }

  /** A single bracket's report body is its block. */
  lemma ReportBodySingle(b: BracketRecord)
    ensures ReportBody([b]) == FormatReadable(b)
  {
    assert [b][..0] == [];
  }

  // ---------------------------------------------------------------------
  // `exportToCSV`.

  const CsvColumns: seq<string> :=
    ["Bracket_ID", "Strategy", "Pool_Tag", "Champion", "Final_Four_1", "Final_Four_2",
     "Final_Four_3", "Final_Four_4", "Expected_Score", "Upset_Count"]

  /** The header line: the ten column names separated by commas. */
  const CsvHeader: string := Join(CsvColumns, ",")

  /** `ff[i] || ''`: the entry, or the empty string past the end. */
  function FinalFourField(ff: seq<string>, i: nat): string {
    if i < |ff| then ff[i] else ""
  }

  function CsvFields(b: BracketRecord): seq<string> {
    [IntToString(b.id), b.strategy, Show(b.poolTag), Show(b.champion),
     FinalFourField(b.finalFour, 0), FinalFourField(b.finalFour, 1),
     FinalFourField(b.finalFour, 2), FinalFourField(b.finalFour, 3),
     IntToString(b.expectedScore), IntToString(b.upsetCount)]
  }

  function CsvRow(b: BracketRecord): string {
    Join(CsvFields(b), ",")
  }

  function CsvRows(brackets: seq<BracketRecord>): (r: seq<string>)
    ensures |r| == |brackets|
  {
    seq(|brackets|, i requires 0 <= i < |brackets| => CsvRow(brackets[i]))
  }

  /** The three pieces a CSV line is appended in, each a field group with its trailing separator. */
  function CsvHead(b: BracketRecord): string {
    IntToString(b.id) + "," + b.strategy + "," + Show(b.poolTag) + "," + Show(b.champion) + ","
  }

  function CsvFinalFour(b: BracketRecord): string {
    FinalFourField(b.finalFour, 0) + "," + FinalFourField(b.finalFour, 1) + ","
    + FinalFourField(b.finalFour, 2) + "," + FinalFourField(b.finalFour, 3) + ","
  }

  function CsvTail(b: BracketRecord): string {
    IntToString(b.expectedScore) + "," + IntToString(b.upsetCount) + "\n"
  }

  lemma Regroup(p: string, q: string, r: string, s: string, t: string, u: string)
    ensures p + s + (q + s) + (r + u) == p + s + (q + s + r) + u
  {
  }

  /** The three appended pieces make up the comma-joined fields and the line break. */
  lemma CsvRowPieces(b: BracketRecord)
    ensures CsvHead(b) + CsvFinalFour(b) + CsvTail(b) == CsvRow(b) + "\n"
  {
    var f := CsvFields(b);
    var g1, g2, g3 := f[..4], f[4..8], f[8..];
    assert g1 == [f[0], f[1], f[2], f[3]];
    assert g2 == [f[4], f[5], f[6], f[7]];
    assert g3 == [f[8], f[9]];
    assert f == g1 + (g2 + g3);
    JoinAppend(g2, g3, ",");
    JoinAppend(g1, g2 + g3, ",");
    JoinFour(f[0], f[1], f[2], f[3], ",");
    JoinFour(f[4], f[5], f[6], f[7], ",");
    JoinTwo(f[8], f[9], ",");
    Regroup(Join(g1, ","), Join(g2, ","), Join(g3, ","), ",", ",", "\n");
  }

  lemma Regroup3(a: string, x: string, y: string, z: string)
    ensures a + x + y + z == a + (x + y + z)
  {
  }

  /** Appending the three pieces of a bracket appends its CSV line. */
  lemma CsvLineAppended(header: string, rows: seq<string>, b: BracketRecord)
    ensures header + Unlines(rows) + CsvHead(b) + CsvFinalFour(b) + CsvTail(b) == header + Unlines(rows + [CsvRow(b)])
  {
    CsvRowPieces(b);
    Regroup3(header + Unlines(rows), CsvHead(b), CsvFinalFour(b), CsvTail(b));
    UnlinesSnoc(rows, CsvRow(b));
    Regroup2(header, Unlines(rows), CsvRow(b) + "\n");
  }

  lemma CsvRowsPrefix(brackets: seq<BracketRecord>, i: nat)
    requires i < |brackets|
    ensures CsvRows(brackets)[..i + 1] == CsvRows(brackets)[..i] + [CsvRow(brackets[i])]
  {
  }

  /** `exportToCSV`: the header line, then one line per bracket. */
  method ExportToCSV(brackets: seq<BracketRecord>) returns (csv: string)
    ensures csv == Unlines([CsvHeader] + CsvRows(brackets))
  {
    csv := CsvHeader + "\n";
    csv := AppendCsvLines(csv, brackets);
    UnlinesCons(CsvHeader, CsvRows(brackets));
  }

  /** The `forEach` of `exportToCSV`: each bracket appends its line in three pieces. */
  method AppendCsvLines(header: string, brackets: seq<BracketRecord>) returns (csv: string)
    ensures csv == header + Unlines(CsvRows(brackets))
  {
    csv := header;
    assert CsvRows(brackets)[..0] == [];
    for i := 0 to |brackets|
      invariant csv == header + Unlines(CsvRows(brackets)[..i])
    {
      var b := brackets[i];
      var ff := b.finalFour;
      ghost var rows := CsvRows(brackets)[..i];
      csv := csv + (IntToString(b.id) + "," + b.strategy + "," + Show(b.poolTag) + "," + Show(b.champion) + ",");
      csv := csv + (FinalFourField(ff, 0) + "," + FinalFourField(ff, 1) + "," + FinalFourField(ff, 2) + "," + FinalFourField(ff, 3) + ",");
      csv := csv + (IntToString(b.expectedScore) + "," + IntToString(b.upsetCount) + "\n");
      CsvLineAppended(header, rows, b);
      CsvRowsPrefix(brackets, i);
    }
    assert CsvRows(brackets)[..|brackets|] == CsvRows(brackets);
  }

  /** A field the CSV carries unquoted: neither a comma nor a line break. */
  predicate CsvSafe(s: string) {
    ',' !in s && '\n' !in s
  }

  predicate CsvSafeRecord(b: BracketRecord) {
    CsvSafe(b.strategy) && CsvSafe(Show(b.poolTag)) && CsvSafe(Show(b.champion))
    && forall k :: 0 <= k < |b.finalFour| ==> CsvSafe(b.finalFour[k])
  }

  lemma CsvFieldsSafe(b: BracketRecord)
    requires CsvSafeRecord(b)
    ensures forall k :: 0 <= k < |CsvFields(b)| ==> CsvSafe(CsvFields(b)[k])
  {
    IntToStringPlain(b.id);
    IntToStringPlain(b.expectedScore);
    IntToStringPlain(b.upsetCount);
  }

  /**
   * Reading the CSV back: it splits into the header, one line per bracket
   * and the empty tail after the last newline, and every row splits into
   * exactly the ten fields of its bracket.
   */
  lemma CsvRoundTrip(brackets: seq<BracketRecord>)
    requires forall i :: 0 <= i < |brackets| ==> CsvSafeRecord(brackets[i])
    ensures Split(Unlines([CsvHeader] + CsvRows(brackets)), '\n') == [CsvHeader] + CsvRows(brackets) + [""]
    ensures forall i :: 0 <= i < |brackets| ==>
      Split(CsvRows(brackets)[i], ',') == CsvFields(brackets[i]) && |Split(CsvRows(brackets)[i], ',')| == 10
  {
    CsvRowsSplit(brackets);
    CsvHeaderColumns();
    SplitHeadedLines(CsvHeader, CsvRows(brackets));
  }

  lemma CsvRowsSplit(brackets: seq<BracketRecord>)
    requires forall i :: 0 <= i < |brackets| ==> CsvSafeRecord(brackets[i])
    ensures forall i :: 0 <= i < |brackets| ==>
      '\n' !in CsvRows(brackets)[i] && Split(CsvRows(brackets)[i], ',') == CsvFields(brackets[i])
  {
    forall i | 0 <= i < |brackets|
      ensures '\n' !in CsvRow(brackets[i]) && Split(CsvRow(brackets[i]), ',') == CsvFields(brackets[i])
    {
      CsvFieldsSafe(brackets[i]);
      SplitCsvLine(CsvFields(brackets[i]));
    }
  }

  /** A header line over break-free rows splits back into the header, the rows and the empty tail. */
  lemma SplitHeadedLines(header: string, rows: seq<string>)
    requires '\n' !in header
    requires forall k :: 0 <= k < |rows| ==> '\n' !in rows[k]
    ensures Split(Unlines([header] + rows), '\n') == [header] + rows + [""]
  {
    var lines := [header] + rows;
    forall k | 0 <= k < |lines| ensures '\n' !in lines[k] {
      if k > 0 {
        assert lines[k] == rows[k - 1];
      }
    }
    SplitUnlines(lines);
  }

  lemma {:induction false} JoinAvoids(parts: seq<string>, sep: string, c: char)
    requires c !in sep
    requires forall k :: 0 <= k < |parts| ==> c !in parts[k]
    ensures c !in Join(parts, sep)
    decreases |parts|
  {
    if |parts| > 1 {
      JoinAvoids(parts[1..], sep, c);
    }
  }

  /** Comma-joined safe fields split back into the fields and hold no line break. */
  lemma SplitCsvLine(fields: seq<string>)
    requires |fields| >= 1
    requires forall k :: 0 <= k < |fields| ==> CsvSafe(fields[k])
    ensures Split(Join(fields, ","), ',') == fields
    ensures '\n' !in Join(fields, ",")
  {
    SplitJoin(fields, ',');
    JoinAvoids(fields, ",", '\n');
  }

  /** The header splits into the ten column names and holds no line break. */
  lemma CsvHeaderColumns()
    ensures Split(CsvHeader, ',') == CsvColumns && |Split(CsvHeader, ',')| == 10
    ensures '\n' !in CsvHeader
  {
    ColumnsSafe();
    SplitCsvLine(CsvColumns);
  }

  lemma ColumnsSafe()
    ensures forall k :: 0 <= k < |CsvColumns| ==> CsvSafe(CsvColumns[k])
  {
  }

  // ---------------------------------------------------------------------
  // `exportToJSON`.

  const EnvelopeNote: string := "Full bracket data with all 63 game picks"

  datatype Envelope = Envelope(tournamentYear: int, generatedAt: string, bracketCount: nat, note: string,
                               brackets: seq<BracketRecord>)

  /** The downloaded object; the ISO time stamp is a parameter. */
  function JsonEnvelope(year: int, generatedAt: string, brackets: seq<BracketRecord>): (e: Envelope)
    ensures e.bracketCount == |e.brackets| && e.brackets == brackets
    ensures e.tournamentYear == year && e.generatedAt == generatedAt && e.note == EnvelopeNote
  {
    Envelope(year, generatedAt, |brackets|, EnvelopeNote, brackets)
  }

  /** The number of game picks a record carries: round entries, finalists and the champion. */
  function PickCount(b: BracketRecord): nat {
    var p := b.picks.GetOr(NoPicks);
    RoundSize(p.round64) + RoundSize(p.round32) + RoundSize(p.sweet16) + RoundSize(p.elite8)
    + RoundSize(p.championship) + (if b.champion.Some? then 1 else 0)
  }

  function RoundSize(r: Option<RoundValue>): nat {
    if r.None? then 0 else |Entries(r.value)|
  }

  /** The note's "63 game picks" holds for every record of a batch generated on a full field. */
  lemma NoteHoldsForFullField(tournamentId: int, structure: Tournament.BracketStructure, kenpom: map<string, Predictor.Rating>,
                              draws: Draws, n: nat)
    requires FullField(structure) && n < 200
    ensures PickCount(RecordOf(n + 1, StoredAt(tournamentId, structure, kenpom, draws, n))) == 63
  {
    FullBracket(Env(kenpom, StrategyFor(n), DrawFor(draws, n)), structure);
  }

  /** The WINNER line of an exported record appears exactly when the simulation crowned a champion. */
  lemma WinnerShownIffChampion(tournamentId: int, structure: Tournament.BracketStructure, kenpom: map<string, Predictor.Rating>,
                               draws: Draws, n: nat)
    ensures var s := StoredAt(tournamentId, structure, kenpom, draws, n);
      var b := RecordOf(n + 1, s);
      |ChampionshipLines(b.picks.value.championship, b.champion)| == 6 <==> s.champion.Some?
  {
  }
}
