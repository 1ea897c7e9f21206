# March Madness bracket generator: a verified model

This project models the core of the March Madness bracket generator in Dafny. The model covers:

- **Building a tournament.** Posted teams are grouped into the East, West, South and Midwest regions. Each region is stable-sorted by seed, and the structure is stored under a fresh id.
- **The bracket engine.**
  - The per-game decision covers the `chalk`, `value` and `chaos` strategies.
  - Simulating a bracket pairs seed-sorted teams round by round, records every pick under a `"<region>_<i>"` key and counts first-round upsets. It also derives the expected score, the Final Four, the championship pair and the champion.
  - A batch of 200 brackets is laid out with fixed ids, strategies and pool tags.
- **The browser side.**
  - The readable text export, the CSV export and the JSON envelope.
  - The KenPom bulk-upload panel: year extraction from file names, the `.csv` queue, per-year statuses and their display.
  - The generator panel: strategy filter, counts, 50-row table, messages and the generate/delete state.
  - The bracket detail view.
  - The statistics carousel.

Modules follow the program:

| Module | File |
|---|---|
| `Tournament` | `tournament.dfy` |
| `Predictor` | `predictor.dfy` |
| `Simulator` | `simulator.dfy` |
| `Batch` | `batch.dfy` |
| `Records` | `records.dfy` |
| `Export` | `export.dfy` |
| `BulkUpload` | `bulk_upload.dfy` |
| `GeneratorPanel` | `generator_panel.dfy` |
| `Detail` | `detail.dfy` |
| `Carousel` | `carousel.dfy` |

`Text` and `Wrappers` hold the string helpers and `Option`/`Result`.

Where the source works step by step, the model does too:

- The region loop of `create_tournament` is a method.
- The round loops and the region loop of `simulate_bracket` are methods.
- The three strategy loops of `generate_brackets` are methods.
- The `output.push` sequence of `formatBracketReadable` is a method.
- The `+=` loops of the text and CSV exports are methods.
- `checkExistingData`, `uploadFile` and `uploadAll` are methods.

Each of these methods is proved equal to a specification function, and the properties are proved about that function. The stored tournaments are a class. So are the upload panel, the generator panel and the carousel state.

Notes on choices:

- **Random outcomes.** The win probability and the random draws are not computed. A game's decision reads a `Chance` holding the probability that team A wins and whether the strategy's random test favours A. The draw is a function of the bracket's position in the batch and the game's two sides. Chalk is modelled as the comparison of `adj_em` ratings. With exact reals, log5 exceeds one half exactly when A's rating is strictly higher.
- **JSON values.** `null` and an absent key are both `None`. A round of picks is a JSON object (entries in insertion order) or an array (`RoundValue`).
- **Null in text.** A template literal renders `null` as `"null"` (`Export.Show`). JSX renders it as nothing (`Detail.ChampionshipView`).
- **JavaScript `%`.** The operator truncates toward zero, and `Carousel.JsRem` models it.

## Model

| member | source | states |
|---|---|---|
| Predictor.GetTeamKenpom | backend/app/services/bracket_generator.py:19-26 | a team in the table gets its row; a team missing from it gets the default rating with `adj_em` 0 |
| Predictor.PredictGame | backend/app/services/bracket_generator.py:28-64 | the winner is always one of the two names, for every strategy. Chalk picks A iff A's rating is strictly higher, so ties go to B. Value picks A above 0.6 and B below 0.4. In [0.4, 0.6] value picks A when its seed (16 if missing) is strictly smaller |
| Predictor.ChalkIsDeterministic | backend/app/services/bracket_generator.py:42-44 | the chalk pick does not depend on the random draw |
| Predictor.ChalkAgainstUnrated | backend/app/services/bracket_generator.py:19-44 | against a team missing from the table (rating 0), a rated B loses exactly when its rating is negative |
| Tournament.SortBySeedSorted | backend/app/api/bracket.py:30-31 | the seed sort yields a list in ascending seed order |
| Tournament.SortBySeedPermutes | backend/app/api/bracket.py:30-31 | the seed sort is a permutation of its input |
| Tournament.SortBySeedStable | backend/app/api/bracket.py:30-31 | for every seed, the teams with that seed keep their input order (stable sort) |
| Tournament.StructureFailsIffUnknownRegion | backend/app/api/bracket.py:24-28 | creation fails iff some team names a region other than the four |
| Tournament.GroupByRegion | backend/app/api/bracket.py:24-28 | the append loop fails with the first unknown region; otherwise it yields each region's teams as `{seed, name}` in input order |
| Tournament.BuildStructure | backend/app/api/bracket.py:14-31 | the grouping and the in-place sorts produce exactly the specified structure or error |
| Tournament.StructureShape | backend/app/api/bracket.py:14-22 | a built structure carries the posted year and exactly the regions East, West, South, Midwest in that order |
| Tournament.RegionsSortedAndStable | backend/app/api/bracket.py:24-31 | each region ends sorted by seed, and equal seeds keep the order in which they were posted |
| Tournament.TeamsPreserved | backend/app/api/bracket.py:24-31 | the four region lists together hold exactly the posted teams as a multiset |
| Tournament.TournamentStore.CreateTournament | backend/app/api/bracket.py:9-42 | on success the row holds the year and structure under a fresh id, and nothing else changes; on failure the store is unchanged and the error is the unknown region |
| Tournament.TournamentStore.GetTournament | backend/app/api/bracket.py:44-52 | returns the stored row iff the id is known, otherwise 404 |
| Simulator.RoundPairing | backend/app/services/bracket_generator.py:95-125 | a round yields floor(n/2) winners. Game j pairs sides 2j and 2j+1, its winner is one of them, and its pick is keyed `"<region>_<2j>"` |
| Simulator.PlayOpeningRound | backend/app/services/bracket_generator.py:95-109 | the round-of-64 loop yields the round's winners, its picks and the count of games won by the strictly larger seed |
| Simulator.PlayRound | backend/app/services/bracket_generator.py:111-125 | the round-of-32 and Sweet 16 loops yield the round's winners and picks |
| Simulator.PlayRegionGames | backend/app/services/bracket_generator.py:88-131 | one region's loops and Elite Eight game produce the region's specified contribution |
| Simulator.PlayRegions | backend/app/services/bracket_generator.py:87-131 | the region loop, which skips regions without teams, produces the specified tally in region order |
| Simulator.SimulateBracket | backend/app/services/bracket_generator.py:66-171 | the imperative simulation equals the specification `Simulate` |
| Simulator.Simulate | backend/app/services/bracket_generator.py:133-171 | the championship and champion exist iff the Final Four has at least four entries. The finalists come from semifinals 0 v 1 and 2 v 3, and the champion is one of them. The expected score is 320 − 5·upsets |
| Simulator.EliteEightFeedsFinalFour | backend/app/services/bracket_generator.py:128-131 | the `elite_8` picks and the Final Four name the same teams in the same order |
| Simulator.UpsetCountBound | backend/app/services/bracket_generator.py:105-109 | at most one upset per first-round game |
| Simulator.RegionChampionIsEntrant | backend/app/services/bracket_generator.py:87-131 | a region champion is one of that region's teams |
| Simulator.FullBracket | backend/app/services/bracket_generator.py:66-171 | a 4×16 field gives 32/16/8/4 picks, a Final Four of 4, a championship and a champion (63 games), at most 32 upsets and a score in [160, 320] |
| Simulator.FinalFourInRegionOrder | backend/app/services/bracket_generator.py:128-131 | on a full field, Final Four entry k is region k's champion and `elite_8` entry k is that region's name and champion |
| Simulator.ChampionIsEntrant | backend/app/services/bracket_generator.py:133-160 | the Final Four, both finalists and the champion are all entered teams |
| Simulator.PickKeysDistinct | backend/app/services/bracket_generator.py:74-125 | with distinct region names no pick key repeats within a round, so no dictionary write is lost |
| Simulator.ChalkRegionChampion | backend/app/services/bracket_generator.py:42-131 | under chalk a 16-team region's champion is rated at least as high as every team of the region |
| Simulator.ChalkChampionIsTopRated | backend/app/services/bracket_generator.py:42-171 | under chalk a full field's champion is rated at least as high as every entered team |
| Simulator.ChalkIgnoresDraw | backend/app/services/bracket_generator.py:42-44 | two chalk simulations on the same ratings are identical whatever the random draws |
| Batch.KenpomDict | backend/app/services/bracket_generator.py:191-199 | the ratings dictionary has exactly the names of the rows |
| Batch.KenpomDictLastWins | backend/app/services/bracket_generator.py:191-199 | for a repeated name the last row wins |
| Batch.AddBracket | backend/app/services/bracket_generator.py:203-270 | one loop pass simulates bracket n and appends its stored row and summary in the laid-out position |
| Batch.GenerateBrackets | backend/app/services/bracket_generator.py:173-274 | an unknown tournament gives the not-found error and stores nothing. Otherwise every bracket is simulated on the dictionary built from the tournament's KenPom rows, and it yields 200 summaries and rows laid out by position, whatever `count` says |
| Batch.StrategyPrefixCounts | backend/app/services/bracket_generator.py:203-270 | after m brackets the numbers of value, chalk and chaos brackets are exactly those of the three loops |
| Batch.BatchLayout | backend/app/services/bracket_generator.py:203-270 | ids run 1..200, rows and summaries agree on strategy, and there are 100 value, 50 chalk and 50 chaos brackets |
| Batch.BatchPoolTags | backend/app/services/bracket_generator.py:204-260 | value brackets alternate `big_pool` (odd id) and `paid_pool` (even id), chalk is `free_pool`, chaos is `big_pool` |
| Batch.ChalkBracketsIdentical | backend/app/services/bracket_generator.py:226-247 | all fifty chalk brackets of a batch are equal |
| Batch.BatchChampions | backend/app/services/bracket_generator.py:173-274 | on a full field every bracket has an entered champion, a Final Four of four and a score in [160, 320] |
| Records.PicksObject | backend/app/api/generate.py:40-50 | a picks dictionary becomes a JSON object with the same entries in order, keys spelled `"<region>_<i>"` |
| Records.RecordOf | backend/app/api/generate.py:40-50 | the returned record carries the stored id, strategy, pool tag, champion, Final Four, expected score and upset count. Its picks hold the three keyed rounds as JSON objects, the Elite 8 as an object, and the championship as a two-element array exactly when one was played |
| Export.SortedRoundEntries | frontend/src/components/BracketExport.tsx:62-84 | the default sort orders entries by the UTF-16 code units of their `"key,value"` string and is a permutation |
| Text.LexLeBasicPlane | frontend/src/components/BracketExport.tsx:62 | on strings without characters above U+FFFF the default sort's code-unit order is the code point order |
| Text.AstralBeforePrivateUse | frontend/src/components/BracketExport.tsx:62 | above U+FFFF the two orders differ: U+1F600 sorts before U+E000 |
| Export.PushEntries | frontend/src/components/BracketExport.tsx:51-64 | the `forEach` appends one `"  key: value"` line per entry, in order |
| Export.PushRound | frontend/src/components/BracketExport.tsx:47-88 | a round block appends its section only when the round is present |
| Export.PushFinalFour | frontend/src/components/BracketExport.tsx:25-31 | appends the Final Four section |
| Export.PushChampionship | frontend/src/components/BracketExport.tsx:34-44 | appends the championship section only when the championship is present |
| Export.FormatBracketReadable | frontend/src/components/BracketExport.tsx:11-92 | the pushes and the final join produce the block the specification describes |
| Export.SummaryContent | frontend/src/components/BracketExport.tsx:15-22 | the summary is eight lines in order: rule, `BRACKET #<id> - <STRATEGY> STRATEGY`, rule, Expected Score, Upset Count, Pool Tag, Champion, blank |
| Export.BlockOpening | frontend/src/components/BracketExport.tsx:15-36 | a block opens with the summary, then FINAL FOUR with entry k on line 11+k as `"  <k+1>. <team>"`, then CHAMPIONSHIP GAME when the championship is present |
| Export.RuleShape | frontend/src/components/BracketExport.tsx:15 | the rule is 80 '=' characters |
| Export.ChampionshipShown | frontend/src/components/BracketExport.tsx:34-44 | the championship section has 0, 4 or 6 lines. The matchup and WINNER lines appear iff the championship is an array of at least two, and they use its first two entries |
| Export.FormatReadableLines | frontend/src/components/BracketExport.tsx:11-92 | when no field holds a line break, splitting the block at '\n' gives back exactly its lines, in section order, followed by three empty lines |
| Export.BlockDelimited | frontend/src/components/BracketExport.tsx:15-91 | a block starts with the rule and a line break and ends with three line breaks |
| Export.ExportReadable | frontend/src/components/BracketExport.tsx:94-108 | the report is the header (year, time stamp, count, rule) followed by every block in input order |
| Export.AppendBlocks | frontend/src/components/BracketExport.tsx:106-108 | the `forEach` appends the blocks in order |
| Export.ReportBodyAppend | frontend/src/components/BracketExport.tsx:106-108 | the report body of a concatenation is the concatenation of the bodies |
| Export.ReportBodySingle | frontend/src/components/BracketExport.tsx:106-108 | a single bracket's body is its block |
| Export.CsvRowPieces | frontend/src/components/BracketExport.tsx:126-128 | the three appended pieces are the comma-joined ten fields and a line break |
| Export.ExportToCSV | frontend/src/components/BracketExport.tsx:121-129 | the CSV is the header line and one '\n'-terminated row per bracket, in input order |
| Export.AppendCsvLines | frontend/src/components/BracketExport.tsx:124-129 | the loop appends one row per bracket |
| Export.CsvRoundTrip | frontend/src/components/BracketExport.tsx:121-129 | when no field holds a comma or line break, the CSV splits into header, N rows and an empty tail, and each row splits back into exactly its ten fields |
| Export.CsvHeaderColumns | frontend/src/components/BracketExport.tsx:122 | the header splits into the ten column names |
| Export.JsonEnvelope | frontend/src/components/BracketExport.tsx:144-150 | `bracket_count` is the number of brackets carried, and the note is the fixed text |
| Export.NoteHoldsForFullField | frontend/src/components/BracketExport.tsx:148 | a record of a batch generated on a full field does carry 63 picks, so the note's claim holds for it |
| Export.WinnerShownIffChampion | frontend/src/components/BracketExport.tsx:34-44 | for an exported generated bracket, the WINNER line appears iff the simulation crowned a champion |
| BulkUpload.ExtractYearFromFilename | frontend/src/components/KenPomBulkUpload.tsx:82-85 | a year is found iff the name holds four consecutive digits, and it lies in [0, 9999] |
| BulkUpload.FirstRun | frontend/src/components/KenPomBulkUpload.tsx:83 | the leftmost run of four digits at or after a position, or none |
| BulkUpload.YearRoundTrip | frontend/src/components/KenPomBulkUpload.tsx:82-85 | a four-digit year after a digit-free prefix is extracted back, whatever follows |
| BulkUpload.FiveDigitsGiveFirstFour | frontend/src/components/KenPomBulkUpload.tsx:82-85 | `"12345"` gives 1234 |
| BulkUpload.NoRunNoYear | frontend/src/components/KenPomBulkUpload.tsx:82-85 | a name without four consecutive digits gives no year |
| BulkUpload.CsvOnly | frontend/src/components/KenPomBulkUpload.tsx:70-77 | the queue holds exactly the selected names ending in `.csv` |
| BulkUpload.CsvOnlyAppend | frontend/src/components/KenPomBulkUpload.tsx:70-77 | the filter keeps order (it distributes over concatenation) |
| BulkUpload.UpdateYear | frontend/src/components/KenPomBulkUpload.tsx:95-132 | a status update changes only the statuses of the given year and keeps every year |
| BulkUpload.UploadEffect | frontend/src/components/KenPomBulkUpload.tsx:87-134 | a null or 0 year changes nothing. Otherwise only that year's status changes and it ends not uploading. After success it has data, is successful, has no error and has the returned team count (or 0). After failure it has error "Upload failed" and keeps the other flags |
| BulkUpload.UnknownYearUnchanged | frontend/src/components/KenPomBulkUpload.tsx:95-97 | a year not in the list changes nothing |
| BulkUpload.UploadEachOthers | frontend/src/components/KenPomBulkUpload.tsx:136-141 | a sequence of uploads leaves untouched every year none of its files names |
| BulkUpload.CheckedStatuses | frontend/src/components/KenPomBulkUpload.tsx:21-52 | one status per year 2015..2025 in order, none uploading or successful. `hasData` is set iff the answer is non-empty and its first row names that year. `teamCount` is the number of rows answered (0 on a failed fetch), and no status carries an error |
| BulkUpload.SameAnswerOneSeason | frontend/src/components/KenPomBulkUpload.tsx:27-52 | when two seasons receive the same answer, at most one of them is marked as having data |
| BulkUpload.ColorMatchesText | frontend/src/components/KenPomBulkUpload.tsx:143-157 | with the priority uploading > success > error > data: the colour is green iff the text starts with ✓, blue iff it is "Uploading...", red iff it is "✗ Error" |
| BulkUpload.DisplayThroughUpload | frontend/src/components/KenPomBulkUpload.tsx:95-157 | an upload shows "Uploading...". Afterwards it shows "✓ Uploaded!" on success, and "✗ Error" on failure unless an earlier success still shows |
| BulkUpload.UploadPanel.SelectFiles | frontend/src/components/KenPomBulkUpload.tsx:64-80 | a non-empty selection replaces the queue with its `.csv` names; an empty one changes nothing |
| BulkUpload.UploadPanel.UploadFile | frontend/src/components/KenPomBulkUpload.tsx:87-134 | the statuses become the specified result of the upload |
| BulkUpload.UploadPanel.UploadAll | frontend/src/components/KenPomBulkUpload.tsx:136-141 | the queue's files are uploaded in order and the queue is then emptied |
| BulkUpload.UploadPanel.CheckExistingData | frontend/src/components/KenPomBulkUpload.tsx:27-52 | the push loop builds exactly the checked statuses |
| GeneratorPanel.WithStrategy | frontend/src/components/BracketGenerator.tsx:59-61 | the filter keeps exactly the brackets with the strategy |
| GeneratorPanel.WithStrategyAppend | frontend/src/components/BracketGenerator.tsx:59-61 | filtering keeps the original order |
| GeneratorPanel.Filtered | frontend/src/components/BracketGenerator.tsx:59-61 | `'all'` yields the whole list; any other value yields exactly the brackets of that strategy |
| GeneratorPanel.StatsBounded | frontend/src/components/BracketGenerator.tsx:63-67 | each of the three counts, and their sum, is at most the number of brackets |
| GeneratorPanel.StatsCoverThreeStrategies | frontend/src/components/BracketGenerator.tsx:63-67 | when every bracket has one of the three strategies, the counts sum to the total |
| GeneratorPanel.VisibleRows | frontend/src/components/BracketGenerator.tsx:197 | the table shows the first min(50, n) filtered brackets in order |
| GeneratorPanel.NoticeIffTruncated | frontend/src/components/BracketGenerator.tsx:197-266 | the "Showing first 50" notice appears iff the table leaves a filtered bracket out |
| GeneratorPanel.MessageStyles | frontend/src/components/BracketGenerator.tsx:37-119 | both success messages contain ✅ and neither failure message does |
| GeneratorPanel.Panel.Rows | frontend/src/components/BracketGenerator.tsx:59-197 | the rows shown are at most 50 brackets of the list that match the filter |
| GeneratorPanel.Panel.StartGenerate | frontend/src/components/BracketGenerator.tsx:32-33 | generating is set and the message cleared |
| GeneratorPanel.Panel.FinishGenerate | frontend/src/components/BracketGenerator.tsx:34-44 | generating is cleared. The message is the fixed success or failure text, and the list is replaced only by a successful reload |
| GeneratorPanel.Panel.HandleGenerate | frontend/src/components/BracketGenerator.tsx:31-45 | after the handler, generating is false on both paths, the message is success-styled iff generation succeeded, the list is replaced only by a successful reload, and the filter is unchanged |
| GeneratorPanel.Panel.HandleDelete | frontend/src/components/BracketGenerator.tsx:47-57 | a declined confirmation changes nothing. Otherwise the message reports the outcome ("❌ Delete failed" on failure). A failed delete keeps the list |
| GeneratorPanel.Panel.SetFilter | frontend/src/components/BracketGenerator.tsx:59-61 | only the filter changes |
| Detail.PicksList | frontend/src/components/BracketDetail.tsx:16-19 | an object round lists its entries in insertion order, unsorted; an array round lists `("Game i+1", element)` in order |
| Detail.RenderRound | frontend/src/components/BracketDetail.tsx:11-22 | a card is shown iff the round is present and its list is non-empty, and it carries the title and the list |
| Detail.GameLabelsDistinct | frontend/src/components/BracketDetail.tsx:18-19 | the game labels of an array round are pairwise distinct |
| Detail.ChampionshipView | frontend/src/components/BracketDetail.tsx:155-181 | a card iff the championship is present. An object gives "Championship matchup", and the winner line shows the champion (empty when null) |
| Detail.View | frontend/src/components/BracketDetail.tsx:100-181 | the view fails iff `picks` is absent. Otherwise it shows the heading, the Final Four in order, the round cards `RoundCards` (at most four; in source order by `Detail.FullRoundsInOrder`, empty rounds dropped by `Detail.PresentSkipsEmpty`) and the championship card `ChampionshipView` |
| Detail.FullRoundsInOrder | frontend/src/components/BracketDetail.tsx:150-153 | with all four rounds non-empty, they appear as Round of 64, Round of 32, Sweet 16, Elite 8 |
| Detail.PresentSkipsEmpty | frontend/src/components/BracketDetail.tsx:12-22 | a round without a card drops out, and the others keep their order |
| Detail.StoredChampionshipCard | frontend/src/components/BracketDetail.tsx:172-177 | for a generated bracket the card reads "A vs B" and the winner line names the champion |
| Detail.HeadingShape | frontend/src/components/BracketDetail.tsx:100 | the heading is "Bracket #", a decimal text that reads back as the id, " - ", then the strategy with each lower-case ASCII letter raised by 32 and every other character kept |
| Carousel.JsRem | frontend/src/components/StatsPage.tsx:99-103 | JavaScript's `%`: equal to the mathematical remainder for a non-negative dividend, in (−n, 0] for a negative one |
| Carousel.NextIndex | frontend/src/components/StatsPage.tsx:98-100 | from a valid index, next stays in [0, 6) and is one more or wraps from 5 to 0 |
| Carousel.PrevIndex | frontend/src/components/StatsPage.tsx:102-104 | from a valid index, previous stays in [0, 6) and is one less or wraps from 0 to 5 |
| Carousel.NextPrevInverse | frontend/src/components/StatsPage.tsx:98-104 | next then previous, and previous then next, return to the same index |
| Carousel.PrevFromFirst | frontend/src/components/StatsPage.tsx:103 | previous from 0 is 5 |
| Carousel.NextTimesAdvance | frontend/src/components/StatsPage.tsx:98-100 | k nexts move k places round the cycle |
| Carousel.SixNextsIdentity | frontend/src/components/StatsPage.tsx:98-100 | six nexts return to the start |
| Carousel.ActiveDots | frontend/src/components/StatsPage.tsx:316-328 | six dots, dot k active iff k is the current index |
| Carousel.OneActiveDot | frontend/src/components/StatsPage.tsx:316-328 | for a valid index exactly one dot is active |
| Carousel.CounterShape | frontend/src/components/StatsPage.tsx:163 | the counter reads the digit of index+1, then " / 6" |
| Carousel.Carousel.GoToNext | frontend/src/components/StatsPage.tsx:98-100 | the index becomes `NextIndex` of the old one and stays valid |
| Carousel.Carousel.GoToPrevious | frontend/src/components/StatsPage.tsx:102-104 | the index becomes `PrevIndex` of the old one and stays valid |
| Carousel.Carousel.GoToIndex | frontend/src/components/StatsPage.tsx:106-108 | the index is set to exactly the given value, and it is valid when the value is a dot's index |

## Left out

- **Floating point.** The log5 formula `get_win_probability` (bracket_generator.py:11-17), `random.random()` and the `0.85` chaos factor are not computed. Every game receives a `Chance` instead, and chalk is the exact-real rating comparison.
- **Database and HTTP plumbing.** SQLAlchemy queries and commits and the FastAPI routers are left out. So are the `[:10]` preview and the ValueError→404/500 mapping of the generate endpoint, `list_tournaments` (a plain query) and the delete endpoint. `generate_brackets` takes the looked-up tournament (or its absence) and the tournament's KenPom rows as parameters, and builds the ratings dictionary from the rows with `Batch.KenpomDict`.
- **Browser I/O.**
  - `api.ts` and every `fetch` are replaced by their outcomes: `UploadOutcome`, `Fetch`, and the generated, loaded and deleted flags. So the hard-coded `tournament/1` of the exports does not appear.
  - Blob, object URL and anchor downloads are left out.
  - `toLocaleString`/`toISOString` become time-stamp parameters.
  - The JSON envelope is a value, and the `JSON.stringify` layout is not modelled.
- **Time and concurrency.** The 2-second `setTimeout` that clears `success` is left out. So are the `useEffect` loads, drag-active state, and interleavings of asynchronous handlers or clicks: `UploadAll` runs the uploads strictly one after another.
- **Rendering.** JSX, styles, `App.tsx`, `KenPomUpload.tsx` and the static visualisation text of `StatsPage.tsx` are left out. The detail view is reduced to its texts and lists.
- **GeneratorPanel.Panel.HandleDelete:** says nothing of the list after a successful delete. There `BracketGenerator.tsx:53` stores `[loadBrackets]`, a one-element array holding the reload function itself, which is not a list of brackets. An empty list would be the evident intent, but the model does not claim it.
- **Pick keys.** These are structured `GameKey` values rather than the source's `f"{region_name}_{i}"` strings. The strings cannot collide either: region names are the keys of one dict, so they are distinct, and the text after the last `_` is the digits of `i`. `Simulator.PickKeysDistinct` rests on exactly that guarantee, distinct region names (`Simulator.StructureRegionNamesDistinct`).
- **One draw per game.** The source calls `random.random()` afresh for every game (bracket_generator.py:55, 60, 64). The model's draw is a function of the bracket position and the game's two sides. So two games of one bracket between the same two sides get the same draw. That can only happen when the same team is entered twice, which `create_tournament` accepts.
- **created_at.** The `created_at` field of each returned record (generate.py:49) is a database time stamp and is not part of `Records.BracketRecord`.
- **Object key order.** JavaScript puts integer-like object keys first. Objects keep insertion order here, which is the case for the `"<region>_<i>"` and region-name keys the backend writes.
- **Upper-casing.** `toUpperCase` is modelled for ASCII letters only.
- **Non-array answers.** `checkExistingData` with a non-array JSON answer is modelled as a failed fetch.
- **Bounded integers.** Dafny's unbounded integers stand in for Python's integers and JavaScript numbers. `parseInt` of four digits and all counts stay far below 2^53.
- **Export.FormatReadableLines:** the round trip through `Split` is stated only for records whose fields hold no line break.
- **Export.CsvRoundTrip:** the round trip is stated only for records whose fields hold no comma and no line break. The CSV has no quoting, so other records do not split back into their fields.
- **Carousel.Carousel.GoToIndex:** does not restrict its argument. The source accepts any number, and only the dots call it, with 0 to 5.
