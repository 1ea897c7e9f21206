/**
 * Tournament creation and lookup (the `/tournament` endpoints): input teams
 * are grouped into the four fixed regions, each region is stable-sorted by
 * seed, and the structure is stored under a fresh id.
 */
module Tournament {
  import opened Wrappers

  /** A team as posted by the client. */
  datatype TeamInput = TeamInput(seed: int, name: string, region: string)

  /** A team as kept in a region list: seed and name only. */
  datatype Team = Team(seed: int, name: string)

  datatype Region = Region(name: string, teams: seq<Team>)

  /** `bracket_structure`: the year and the regions in dictionary order. */
  datatype BracketStructure = BracketStructure(year: int, regions: seq<Region>)

  /** A stored tournament row. */
  datatype TournamentRow = TournamentRow(id: int, year: int, structure: BracketStructure)

  datatype ApiError =
    | UnknownRegion(region: string)  // the KeyError raised by the region lookup
    | NotFound                       // HTTP 404 "Tournament not found"

  const RegionNames: seq<string> := ["East", "West", "South", "Midwest"]

  function Entry(t: TeamInput): Team {
    Team(t.seed, t.name)
  }

  /** The entries appended to region `name`, in input order. */
  function InRegion(teams: seq<TeamInput>, name: string): seq<Team> {
    if teams == [] then []
    else
      var last := teams[|teams| - 1];
      InRegion(teams[..|teams| - 1], name) + (if last.region == name then [Entry(last)] else [])
  }

  lemma InRegionSnoc(teams: seq<TeamInput>, i: nat, name: string)
    requires i + 1 == |teams|
    ensures InRegion(teams, name) == InRegion(teams[..i], name) + (if teams[i].region == name then [Entry(teams[i])] else [])
  {
  }

  /** The region of the first team that names none of the four regions. */
  function FirstUnknownRegion(teams: seq<TeamInput>): Option<string> {
    if teams == [] then None
    else if teams[0].region !in RegionNames then Some(teams[0].region)
    else FirstUnknownRegion(teams[1..])
  }

  // ---------------------------------------------------------------------
  // Python's stable `list.sort(key=seed)`, as an insertion sort that puts
  // each element before the first element whose seed is at least its own,
  // working from the back so that equal seeds keep their input order.

  function InsertBySeed(t: Team, s: seq<Team>): (r: seq<Team>)
    ensures multiset(r) == multiset(s) + multiset{t}
    ensures |r| == |s| + 1
  {
    if s == [] || t.seed <= s[0].seed then [t] + s
    else
      assert s == [s[0]] + s[1..];
      [s[0]] + InsertBySeed(t, s[1..])
  }

  function SortBySeed(s: seq<Team>): (r: seq<Team>)
    ensures |r| == |s|
  {
    if s == [] then [] else InsertBySeed(s[0], SortBySeed(s[1..]))
  }

  predicate SortedBySeed(s: seq<Team>) {
    forall i, j :: 0 <= i < j < |s| ==> s[i].seed <= s[j].seed
  }

  /** The teams of `s` with seed `k`, in order. */
  function WithSeed(s: seq<Team>, k: int): seq<Team> {
    if s == [] then [] else (if s[0].seed == k then [s[0]] else []) + WithSeed(s[1..], k)
  }

  lemma {:induction false} InsertBySeedSorted(t: Team, s: seq<Team>)
    requires SortedBySeed(s)
    ensures SortedBySeed(InsertBySeed(t, s))
    ensures forall x :: x in InsertBySeed(t, s) ==> x == t || x in s
    decreases |s|
  {
    if s != [] && t.seed > s[0].seed {
      InsertBySeedSorted(t, s[1..]);
      var r := InsertBySeed(t, s);
      assert r == [s[0]] + InsertBySeed(t, s[1..]);
      forall i, j | 0 <= i < j < |r| ensures r[i].seed <= r[j].seed {
        if i == 0 {
          assert r[j] in InsertBySeed(t, s[1..]);
          assert r[j] == t || r[j] in s[1..];
        }
      }
    }
  }

  /** The region lists come out in ascending seed order. */
  lemma {:induction false} SortBySeedSorted(s: seq<Team>)
    ensures SortedBySeed(SortBySeed(s))
    decreases |s|
  {
    if s != [] {
      SortBySeedSorted(s[1..]);
      InsertBySeedSorted(s[0], SortBySeed(s[1..]));
    }
  }

  /** Sorting neither loses nor duplicates a team. */
  lemma {:induction false} SortBySeedPermutes(s: seq<Team>)
    ensures multiset(SortBySeed(s)) == multiset(s)
    decreases |s|
  {
    if s != [] {
      SortBySeedPermutes(s[1..]);
      assert s == [s[0]] + s[1..];
    }
  }

  lemma {:induction false} WithSeedAbove(s: seq<Team>, k: int)
    requires forall i :: 0 <= i < |s| ==> s[i].seed > k
    ensures WithSeed(s, k) == []
    decreases |s|
  {
    if s != [] {
      WithSeedAbove(s[1..], k);
    }
  }

  lemma {:induction false} WithSeedInsert(t: Team, s: seq<Team>, k: int)
    requires SortedBySeed(s)
    ensures WithSeed(InsertBySeed(t, s), k) == (if t.seed == k then [t] else []) + WithSeed(s, k)
    decreases |s|
  {
    if s == [] || t.seed <= s[0].seed {
      if t.seed == k && s != [] && s[0].seed > k {
        WithSeedAbove(s, k);
      } else if t.seed == k && s != [] {
        // s[0].seed == k, so WithSeed(s, k) starts with s[0]; nothing to reorder
      }
    } else {
      WithSeedInsert(t, s[1..], k);
      if t.seed == k {
        assert s[0].seed < k;
      }
    }
  }

  /** Stability: for each seed, the teams with that seed keep their input order. */
  lemma {:induction false} SortBySeedStable(s: seq<Team>, k: int)
    ensures WithSeed(SortBySeed(s), k) == WithSeed(s, k)
    decreases |s|
  {
    if s != [] {
      SortBySeedStable(s[1..], k);
      SortBySeedSorted(s[1..]);
      WithSeedInsert(s[0], SortBySeed(s[1..]), k);
    }
  }

  // ---------------------------------------------------------------------
  // Building the structure.

  /** Region `name`'s list: its entries in input order, then sorted by seed. */
  function SortedRegion(teams: seq<TeamInput>, name: string): seq<Team> {
    SortBySeed(InRegion(teams, name))
  }

  /** What `create_tournament` builds from a request, or the KeyError it raises. */
  function StructureOf(year: int, teams: seq<TeamInput>): Result<BracketStructure, ApiError> {
    match FirstUnknownRegion(teams)
    case Some(bad) => Failure(UnknownRegion(bad))
    case None =>
      Success(BracketStructure(year,
        seq(4, k requires 0 <= k < 4 => Region(RegionNames[k], SortedRegion(teams, RegionNames[k])))))
  }

  lemma {:induction false} FirstUnknownFound(teams: seq<TeamInput>, i: nat)
    requires i < |teams| && teams[i].region !in RegionNames
    requires forall j :: 0 <= j < i ==> teams[j].region in RegionNames
    ensures FirstUnknownRegion(teams) == Some(teams[i].region)
    decreases i
  {
    if i > 0 {
      FirstUnknownFound(teams[1..], i - 1);
    }
  }

  lemma {:induction false} FirstUnknownNone(teams: seq<TeamInput>)
    requires forall j :: 0 <= j < |teams| ==> teams[j].region in RegionNames
    ensures FirstUnknownRegion(teams) == None
    decreases |teams|
  {
    if teams != [] {
      FirstUnknownNone(teams[1..]);
    }
  }

  /** Creation fails exactly when some team names a region outside the four. */
  lemma {:induction false} StructureFailsIffUnknownRegion(year: int, teams: seq<TeamInput>)
    ensures StructureOf(year, teams).Failure? <==> exists j :: 0 <= j < |teams| && teams[j].region !in RegionNames
    decreases |teams|
  {
    if teams != [] {
      StructureFailsIffUnknownRegion(year, teams[1..]);
      if teams[0].region in RegionNames {
        assert forall j :: 1 <= j < |teams| ==> teams[j] == teams[1..][j - 1];
      }
    }
  }

  /** The dictionary lookup `regions[name]`: the slot of a known region. */
  function RegionSlot(name: string): (r: Option<nat>)
    ensures r.Some? <==> name in RegionNames
    ensures r.Some? ==> r.value < 4 && RegionNames[r.value] == name
  {
    if name == "East" then Some(0)
    else if name == "West" then Some(1)
    else if name == "South" then Some(2)
    else if name == "Midwest" then Some(3)
    else None
  }

  /** Region `name`'s entries in input order, before sorting. */
  function Grouped(teams: seq<TeamInput>): seq<Region> {
    seq(4, k requires 0 <= k < 4 => Region(RegionNames[k], InRegion(teams, RegionNames[k])))
  }

  lemma GroupedSnoc(teams: seq<TeamInput>, k: nat)
    requires teams != [] && k < 4 && RegionNames[k] == teams[|teams| - 1].region
    ensures var g := Grouped(teams[..|teams| - 1]);
      Grouped(teams) == g[k := Region(g[k].name, g[k].teams + [Entry(teams[|teams| - 1])])]
  {
    var g := Grouped(teams[..|teams| - 1]);
    var h := g[k := Region(g[k].name, g[k].teams + [Entry(teams[|teams| - 1])])];
    forall m | 0 <= m < 4 ensures Grouped(teams)[m] == h[m] {
      InRegionSnoc(teams, |teams| - 1, RegionNames[m]);
    }
  }

  /**
   * The first `create_tournament` loop: append `{seed, name}` to the team's
   * region list, raising a KeyError for a region outside the four.
   */
  method GroupByRegion(teams: seq<TeamInput>) returns (r: Result<seq<Region>, ApiError>)
    ensures r.Failure? <==> FirstUnknownRegion(teams).Some?
    ensures r.Failure? ==> r.error == UnknownRegion(FirstUnknownRegion(teams).value)
    ensures r.Success? ==> r.value == Grouped(teams)
  {
    var regions := [Region("East", []), Region("West", []), Region("South", []), Region("Midwest", [])];
    assert regions == Grouped(teams[..0]);
    var i := 0;
    while i < |teams|
      invariant 0 <= i <= |teams|
      invariant forall j :: 0 <= j < i ==> teams[j].region in RegionNames
      invariant regions == Grouped(teams[..i])
    {
      var team := teams[i];
      var slot := RegionSlot(team.region);
      if slot.None? {
        FirstUnknownFound(teams, i);
        return Failure(UnknownRegion(team.region));
      }
      var k := slot.value;
      GroupedSnoc(teams[..i + 1], k);
      assert teams[..i + 1][..i] == teams[..i];
      regions := regions[k := Region(regions[k].name, regions[k].teams + [Team(team.seed, team.name)])];
      i := i + 1;
    }
    assert teams[..i] == teams;
    FirstUnknownNone(teams);
    r := Success(regions);
  }

  /**
   * `create_tournament`'s structure: the grouped regions, then each region
   * list sorted in place by seed.
   */
  method BuildStructure(year: int, teams: seq<TeamInput>) returns (r: Result<BracketStructure, ApiError>)
    ensures r == StructureOf(year, teams)
  {
    var grouped := GroupByRegion(teams);
    if grouped.Failure? {
      return Failure(grouped.error);
    }
    var regions := grouped.value;
    var k := 0;
    while k < |regions|
      invariant 0 <= k <= |regions| == 4
      invariant forall j :: 0 <= j < 4 ==>
        regions[j] == Region(RegionNames[j], if j < k then SortedRegion(teams, RegionNames[j]) else InRegion(teams, RegionNames[j]))
    {
      regions := regions[k := Region(regions[k].name, SortBySeed(regions[k].teams))];
      k := k + 1;
    }
    ghost var expected := StructureOf(year, teams).value.regions;
    assert forall j :: 0 <= j < 4 ==> regions[j] == expected[j];
    assert regions == expected;
    r := Success(BracketStructure(year, regions));
  }

  /** The structure has the request's year and exactly East, West, South, Midwest, in that order. */
  lemma StructureShape(year: int, teams: seq<TeamInput>)
    requires StructureOf(year, teams).Success?
    ensures StructureOf(year, teams).value.year == year
    ensures |StructureOf(year, teams).value.regions| == 4
    ensures forall k :: 0 <= k < 4 ==> StructureOf(year, teams).value.regions[k].name == RegionNames[k]
  {
  }

  /**
   * Each region list is sorted by seed, and the teams of each seed appear in
   * the order they were posted.
   */
  lemma RegionsSortedAndStable(year: int, teams: seq<TeamInput>, k: nat, seed: int)
    requires k < 4
    requires StructureOf(year, teams).Success?
    ensures SortedBySeed(StructureOf(year, teams).value.regions[k].teams)
    ensures WithSeed(StructureOf(year, teams).value.regions[k].teams, seed) == WithSeed(InRegion(teams, RegionNames[k]), seed)
  {
    var name := RegionNames[k];
    assert StructureOf(year, teams).value.regions[k].teams == SortedRegion(teams, name);
    SortBySeedSorted(InRegion(teams, name));
    SortBySeedStable(InRegion(teams, name), seed);
  }

  function Entries(teams: seq<TeamInput>): seq<Team> {
    if teams == [] then [] else Entries(teams[..|teams| - 1]) + [Entry(teams[|teams| - 1])]
  }

  function RegionBags(teams: seq<TeamInput>): multiset<Team> {
    multiset(InRegion(teams, "East")) + multiset(InRegion(teams, "West"))
      + multiset(InRegion(teams, "South")) + multiset(InRegion(teams, "Midwest"))
  }

  /** The last team joins the bag of its own region and of no other. */
  lemma RegionBagSnoc(teams: seq<TeamInput>, name: string)
    requires teams != []
    ensures teams[|teams| - 1].region == name ==>
      multiset(InRegion(teams, name)) == multiset(InRegion(teams[..|teams| - 1], name)) + multiset{Entry(teams[|teams| - 1])}
    ensures teams[|teams| - 1].region != name ==>
      multiset(InRegion(teams, name)) == multiset(InRegion(teams[..|teams| - 1], name))
  {
  }

  lemma RegionNamesDistinct()
    ensures "East" != "West" && "East" != "South" && "East" != "Midwest"
    ensures "West" != "South" && "West" != "Midwest" && "South" != "Midwest"
  {
    assert "East"[0] != "West"[0];
  }

  lemma BagsGrowOne(a: multiset<Team>, b: multiset<Team>, c: multiset<Team>, d: multiset<Team>, e: multiset<Team>,
                    a': multiset<Team>, b': multiset<Team>, c': multiset<Team>, d': multiset<Team>)
    requires (a' == a + e && b' == b && c' == c && d' == d) || (a' == a && b' == b + e && c' == c && d' == d)
          || (a' == a && b' == b && c' == c + e && d' == d) || (a' == a && b' == b && c' == c && d' == d + e)
    ensures a' + b' + c' + d' == a + b + c + d + e
  {
  }

  lemma RegionBagsSnoc(teams: seq<TeamInput>)
    requires teams != [] && teams[|teams| - 1].region in RegionNames
    ensures RegionBags(teams) == RegionBags(teams[..|teams| - 1]) + multiset{Entry(teams[|teams| - 1])}
  {
    var init := teams[..|teams| - 1];
    var r := teams[|teams| - 1].region;
    RegionNamesDistinct();
    assert r == "East" || r == "West" || r == "South" || r == "Midwest";
    RegionBagSnoc(teams, "East");
    RegionBagSnoc(teams, "West");
    RegionBagSnoc(teams, "South");
    RegionBagSnoc(teams, "Midwest");
    BagsGrowOne(multiset(InRegion(init, "East")), multiset(InRegion(init, "West")),
                multiset(InRegion(init, "South")), multiset(InRegion(init, "Midwest")),
                multiset{Entry(teams[|teams| - 1])},
                multiset(InRegion(teams, "East")), multiset(InRegion(teams, "West")),
                multiset(InRegion(teams, "South")), multiset(InRegion(teams, "Midwest")));
  }

  lemma {:induction false} InRegionsCoverEntries(teams: seq<TeamInput>)
    requires forall j :: 0 <= j < |teams| ==> teams[j].region in RegionNames
    ensures RegionBags(teams) == multiset(Entries(teams))
    decreases |teams|
  {
    if teams != [] {
      InRegionsCoverEntries(teams[..|teams| - 1]);
      RegionBagsSnoc(teams);
    }
  }

  /** Together the four region lists hold exactly the posted teams, as `{seed, name}` entries. */
  lemma TeamsPreserved(year: int, teams: seq<TeamInput>)
    requires StructureOf(year, teams).Success?
    ensures var rs := StructureOf(year, teams).value.regions;
      multiset(rs[0].teams) + multiset(rs[1].teams) + multiset(rs[2].teams) + multiset(rs[3].teams)
        == multiset(Entries(teams))
  {
    StructureFailsIffUnknownRegion(year, teams);
    InRegionsCoverEntries(teams);
    forall k | 0 <= k < 4 ensures multiset(SortedRegion(teams, RegionNames[k])) == multiset(InRegion(teams, RegionNames[k])) {
      SortBySeedPermutes(InRegion(teams, RegionNames[k]));
    }
    assert forall k :: 0 <= k < 4 ==> StructureOf(year, teams).value.regions[k].teams == SortedRegion(teams, RegionNames[k]);
  }

  /** The stored tournaments, keyed by their auto-assigned id. */
  class TournamentStore {
    var rows: map<int, TournamentRow>
    var nextId: int

    ghost predicate Valid()
      reads this
    {
      nextId >= 1 && forall id :: id in rows ==> 1 <= id < nextId && rows[id].id == id
    }

    constructor ()
      ensures Valid() && rows == map[]
    {
      rows := map[];
      nextId := 1;
    }

    /** `create_tournament`: build the structure and store it under a fresh id. */
    method CreateTournament(year: int, teams: seq<TeamInput>) returns (r: Result<TournamentRow, ApiError>)
      requires Valid()
      modifies this
      ensures Valid()
      ensures r.Failure? <==> StructureOf(year, teams).Failure?
      ensures r.Failure? ==> r.error == StructureOf(year, teams).error && rows == old(rows) && nextId == old(nextId)
      ensures r.Success? ==>
        && r.value == TournamentRow(old(nextId), year, StructureOf(year, teams).value)
        && r.value.id !in old(rows)
        && rows == old(rows)[r.value.id := r.value]
        && nextId == old(nextId) + 1
    {
      var structure := BuildStructure(year, teams);
      if structure.Failure? {
        return Failure(structure.error);
      }
      var row := TournamentRow(nextId, year, structure.value);
      rows := rows[nextId := row];
      nextId := nextId + 1;
      r := Success(row);
    }

    /** `get_tournament`: the stored row, or 404 for an unknown id. */
    function GetTournament(id: int): (r: Result<TournamentRow, ApiError>)
      reads this
      ensures r.Success? <==> id in rows
      ensures r.Success? ==> r.value == rows[id]
      ensures r.Failure? ==> r.error == NotFound
    {
      if id in rows then Success(rows[id]) else Failure(NotFound)
    }
  }
}
