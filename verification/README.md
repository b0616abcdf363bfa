# FPL Copilot frontend: a Dafny model of its data logic

The FPL Copilot frontend is a React/TypeScript single-page app for Fantasy
Premier League managers. Underneath its rendering sit small pure data
operations. This project models those operations in Dafny, treating every
API response as a plain input value, and proves properties of them:

- **Reconciling a gameweek's points** (`FplData`). The hook joins the picks,
  the player catalogue and the live scores into one row per pick. It then
  recomputes the gameweek total by hand (with the bench-boost rule) and
  reports the signed difference from the API's total. The API value itself
  is never changed.
- **Building the planning squad** (`CommandCenterData`). This covers choosing
  the next gameweek, the team → opponents multimap (double gameweeks
  included), sorting draft picks by slot with placeholders for missing
  catalogue rows, and the fixture rows with their defaults.
- **Prediction lookup maps** (`PredictionsData`, over `Lookup`). Lists become
  id-keyed maps where a later duplicate wins. Each endpoint's failure is
  isolated, and there is a guard for invalid gameweeks.
- **Opponent difficulty** (`Difficulty`). An explicit 1–5 rating is used when
  present, otherwise the strength table, and the result is banded into three
  colours and badge classes.
- **The sandbox squad** (`Sandbox`, `Squad`). This is a state machine of set
  captain, auto-captain, transfer, undo and reset over the squad and its
  action log.
- **Display-side list operations**:
  - the In-Form and Bandwagons cards' stable descending sorts and ranks
    (`InFormCard`, `BandwagonsCard`, `RankedList`, `Sorting`);
  - grouping fixtures by date. One card orders the dates as strings; the
    other follows `Object.entries` order (`FixturesCardSorted`,
    `FixturesCardEntries`, `Grouping`);
  - the starter/bench split and position rows of the three pitch components
    (`MultiplierPitchCard`, `BenchPitchCard`, `CommandCenterPitch`, all
    built on `PitchLayout`);
  - the two stats strips (`DiscrepancyStrip`, `OverviewStatsStrip`);
  - the deadline countdown and chip badges (`StatusStrip`);
  - the gameweek status (`GwHeader`).
- **The session** (`Session`). This covers the stored team id, login
  (trim, then reject empty input) and the route guard.

## Shared helper modules

- `Common` holds `Option`, filtering, counting and sums.
- `Text` covers:
  - decimal printing and parsing of integers;
  - signed numbers, tenths and money;
  - JavaScript `trim`;
  - array-index keys;
  - code-unit string order.

## JavaScript semantics

Every numeric value is an unbounded integer. Where the JavaScript semantics
matter, they are written out:

- `Array.prototype.sort` is stable.
- `Object.entries` lists array-index keys first, in ascending numeric order.
- `null` and `undefined` are distinguished where the code tests `!== null`
  rather than `!= null`.
- An unparseable date is `None`; every comparison with NaN is false.
- Sums of money are held in integer tenths of a million.

## Model

| member | source | states |
|---|---|---|
| FplData.BuildPlayerList | src/hooks/useFplData.ts:163-194 | One row per pick, in pick order. Each row is built from the last catalogue, team, element-type and live entry with the pick's id, which is exactly what a backwards scan of each list finds. The row's id is the pick's element and it keeps the pick's multiplier. `isBench` holds exactly when the slot is above 11. Points are actual points times the multiplier. |
| FplData.ManualPointsByPlayer | src/hooks/useFplData.ts:33-46 | The manual total equals an independent per-player sum. A starter contributes actual × multiplier. A bench player contributes their raw points under bench boost and nothing otherwise. |
| FplData.BenchIgnoredWithoutBoost | src/hooks/useFplData.ts:33-39 | Without bench boost, changing a bench player's score leaves the manual total unchanged. |
| FplData.ManualPointsOfRows | src/hooks/useFplData.ts:33-39 | On rows built from picks, the manual total without bench boost is the sum of the starters' displayed `points`. |
| FplData.CurrentEvent | src/hooks/useFplData.ts:85-88 | Absent exactly when no event is current. Otherwise it is the first current event in list order. |
| FplData.Reconcile | src/hooks/useFplData.ts:113-137 | `gwPoints` is the API total unchanged. The manual total uses bench boost exactly when the active chip is "bboost". manual = API + discrepancy. |
| FplData.LoadGameweek | src/hooks/useFplData.ts:59-137 | A missing or zero team id leaves the hook idle. The load fails with "No current gameweek found" exactly when no event is current. Otherwise the result carries the first current event's id, deadline and finished flag, the built rows, and exactly the reconciled stats of those rows: the API total, the manual total under the "bboost" rule, and discrepancy = manual − API. |
| CommandCenterData.NextGameweek | src/hooks/useCommandCenterData.ts:112-118 | The planned gameweek is the first `is_next` event's id. Failing that it is one after the first current event, or one after the last finished event, or 1. |
| CommandCenterData.Record | src/hooks/useCommandCenterData.ts:137-143 | After one fixture, the map's domain is the old domain plus both teams of that fixture. |
| CommandCenterData.RecordEntry | src/hooks/useCommandCenterData.ts:137-143 | One fixture appends the away side's short name to the home team's list and the home side's to the away team's, with "???" for an unknown id. Every other list is unchanged. |
| CommandCenterData.OpponentsByTeamIsOpponentsOf | src/hooks/useCommandCenterData.ts:136-143 | The mutable map agrees with a per-team reference list, the opponents in fixture order. A team is a key exactly when it plays in some fixture. |
| CommandCenterData.OpponentCount | src/hooks/useCommandCenterData.ts:137-143 | A team gets one opponent per fixture it appears in: its home fixtures plus its away fixtures. |
| CommandCenterData.SlotOrder | src/hooks/useCommandCenterData.ts:152-154 | The picks sorted by slot are a permutation of the input, of the same length and ascending in `position`. |
| CommandCenterData.SlotOrderStable | src/hooks/useCommandCenterData.ts:152-154 | Picks sharing a slot keep their input order. |
| CommandCenterData.BuildSquad | src/hooks/useCommandCenterData.ts:148-181 | With no my-team response the squad is empty. Otherwise there is one entry per slot-ordered pick, joined with the last matching catalogue element and team, and with the team's opponents (none when the team is unknown). |
| CommandCenterData.SquadEntries | src/hooks/useCommandCenterData.ts:156-179 | Each entry has the pick's id and zero points. It is on the bench exactly when its slot is above 11. |
| CommandCenterData.ColorOf | src/hooks/useCommandCenterData.ts:210 | A listed abbreviation gets its colour from the table; any other gets "#666". |
| CommandCenterData.ColorFallbackOnlyForUnknown | src/hooks/useCommandCenterData.ts:52-58 | "#666" is returned exactly for abbreviations the table does not list. |
| CommandCenterData.FixtureRows | src/hooks/useCommandCenterData.ts:192-223 | One row per fixture, in order, each built from the last team entries with the home and away ids. |
| CommandCenterData.FixtureRowDefaults | src/hooks/useCommandCenterData.ts:205-222 | A null score shows as 0 and a present score unchanged. An unknown team shows as "Unknown" / "???" in colour "#666". |
| CommandCenterData.LoadPlan | src/hooks/useCommandCenterData.ts:85-234 | A missing or empty team id sets the "No team ID" error and keeps the rest of the previous state. Otherwise there is no error, and the state holds the next gameweek, the built squad and the fixture rows. |
| CommandCenterData.LoadOverwritesPrevious | src/hooks/useCommandCenterData.ts:225-234 | A load with a team id replaces the whole state, so the previous state has no influence on it. |
| CommandCenterData.MissingIdOnFirstRun | src/hooks/useCommandCenterData.ts:74-89 | Without a team id on the first run, the page sees the error with gameweek 0, no squad and no fixtures. |
| PredictionsData.LoadPredictions | src/hooks/usePredictionsData.ts:27-65 | Never an error. An absent or non-positive gameweek gives two empty maps. Otherwise each map's keys are exactly the ids in its list, and a lookup agrees with a backwards scan: the later duplicate wins. |
| PredictionsData.FailureIsolated | src/hooks/usePredictionsData.ts:45-48 | A failed predictions fetch empties only the predictions map; the fixtures map is unaffected. |
| PredictionsData.LaterDuplicateWins | src/hooks/usePredictionsData.ts:53-55 | An entry appended after any earlier ones with the same id is the one the map returns. |
| Lookup.IndexByIsLastWins | src/hooks/usePredictionsData.ts:53-58 | `new Map(list.map(x => [x.id, x]))` agrees, key by key, with a backwards scan for the last element with that id. |
| Lookup.IndexByDistinct | src/hooks/useFplData.ts:168-171 | With distinct ids, every element is found under its own id. |
| Difficulty.DifficultyColor | src/utils/difficulty.ts:6-10 | "emerald" exactly when d ≤ 2, "yellow" exactly when d = 3, "rose" exactly otherwise. |
| Difficulty.TableInRange | src/utils/difficulty.ts:13-24 | Every table rating lies in 1..5. |
| Difficulty.OpponentDifficulty | src/utils/difficulty.ts:30-35 | The result is always in 1..5. An explicit rating within 1..5 is returned unchanged. Any other explicit value is ignored in favour of the table, and an unlisted abbreviation gets 3. |
| Difficulty.BadgeClasses | src/utils/difficulty.ts:40-51 | One of the three class strings: the easy classes exactly for the emerald band, the medium classes exactly for yellow, the hard classes exactly for rose. |
| Difficulty.BadgeFollowsColor | src/utils/difficulty.ts:40-51 | Two difficulties get the same badge classes exactly when they get the same colour. |
| Difficulty.TopTierIsHard | src/utils/difficulty.ts:30-35 | "MCI" with no explicit rating is 5, which gets the hard (rose) classes. |
| Difficulty.UnknownIsMedium | src/utils/difficulty.ts:30-35 | "XXX" with no rating, or with one outside 1..5, is 3, which gets the medium classes. |
| Sandbox.SetCaptain | src/pages/CommandCenterPage.tsx:120-134 | Only the captain and vice flags change. A player is captain exactly when they have the chosen id, and vice exactly when they were captain and have another id. |
| Sandbox.CaptainCounts | src/pages/CommandCenterPage.tsx:120-134 | The number of captains after the call is the number of players with the id, so an absent id leaves no captain. The number of vice-captains is the number of former captains with another id. |
| Sandbox.SetCaptainTwice | src/pages/CommandCenterPage.tsx:120-134 | Choosing the current captain again leaves no vice-captain. |
| Sandbox.ReduceBestIndex | src/pages/CommandCenterPage.tsx:140 | The reduce picks an index with maximal xPts, and no later index has equal xPts: the last maximum wins. |
| Sandbox.AutoCaptain | src/pages/CommandCenterPage.tsx:136-142 | With no starter nothing changes. Otherwise it captains a starter whose xPts is maximal among all starters and strictly above every later starter's. |
| Sandbox.Transfer | src/pages/CommandCenterPage.tsx:101-118 | Exactly one action is appended and the real squad is untouched. If the out-id is not in the squad or the in-id is not in the real squad, the squad is unchanged. Otherwise only the first slot holding the out-id is replaced, by the first real-squad player with the in-id. |
| Sandbox.Undo | src/pages/CommandCenterPage.tsx:82-89 | Only the last action is removed, and nothing happens on an empty log. Both squads are left untouched. |
| Sandbox.Reset | src/pages/CommandCenterPage.tsx:91-94 | The sandbox squad becomes the real squad and the log empties. |
| Sandbox.StepKeepsValid | src/pages/CommandCenterPage.tsx:82-142 | Every handler keeps the sandbox the real squad's size, with every sandbox player drawn from the real squad. The real squad never changes. The log grows by one on a transfer, shrinks by one on an undo of a non-empty log, empties on reset and is otherwise unchanged. |
| InFormCard.FormLeIsPreorder | src/components/command-center/InFormCard.tsx:18-23 | The comparator (points, then minutes, both descending) is a total preorder, so the sort is well defined. |
| InFormCard.FormOrder | src/components/command-center/InFormCard.tsx:16-23 | The result is a permutation of the fetched list of the same length. It does not increase in last-4 points, and among equal points it does not increase in minutes. |
| InFormCard.FormOrderStable | src/components/command-center/InFormCard.tsx:16-23 | Players tied on both keys keep their fetched order. |
| InFormCard.FormView | src/components/command-center/InFormCard.tsx:25-60 | A failure shows its message, or the fallback text when the thrown value was not an Error. A failure whose message is empty, like an empty list, shows the empty state. Otherwise every fetched player appears, ranked 1, 2, … and sorted by form. |
| BandwagonsCard.SortKey | src/components/command-center/BandwagonsCard.tsx:19-20 | The balance when present, even if 0. Otherwise transfers in. |
| BandwagonsCard.BandwagonLeIsPreorder | src/components/command-center/BandwagonsCard.tsx:18-22 | The comparator is a total preorder. |
| BandwagonsCard.BandwagonOrder | src/components/command-center/BandwagonsCard.tsx:16-22 | A permutation of the input, of the same length and non-increasing in the key. |
| BandwagonsCard.BandwagonOrderStable | src/components/command-center/BandwagonsCard.tsx:16-22 | Players with equal keys keep their input order. |
| BandwagonsCard.NetLabel | src/components/command-center/BandwagonsCard.tsx:66 | Empty exactly when there is no balance. A "+" prefix appears exactly when the balance is positive. |
| BandwagonsCard.NetLabelReadsBack | src/components/command-center/BandwagonsCard.tsx:66 | The label reads back as the balance. |
| BandwagonsCard.BandwagonView | src/components/command-center/BandwagonsCard.tsx:24-59 | A non-empty error message is shown as the error. An empty message or an empty list shows the empty state. Otherwise every fetched player appears, sorted by the key and ranked from 1. |
| RankedList.Ranked | src/components/command-center/InFormCard.tsx:52-60 | One row per item, keeping each item in place. |
| RankedList.RanksConsecutive | src/components/command-center/BandwagonsCard.tsx:51-59 | Ranks start at 1 and go up by one, so they are strictly increasing. |
| RankedList.View | src/components/command-center/InFormCard.tsx:25-52 | A failure with a non-empty message shows the error. The empty state shows exactly for an empty message (falsy, so the still-empty list is tested) or an empty list. Otherwise row i holds rank i + 1 and the i-th ordered item. |
| Grouping.AddTo | src/components/gw-overview/FixturesCard.tsx:20-23 | Adding an item to a known key appends it to that group only. A new key opens a group at the end. No other group changes, and the flattened contents gain exactly that item. |
| Grouping.GroupBy | src/components/GWOverview/FixturesCard.tsx:10-17 | The reduce gives distinct keys. Each group is the input filtered by its key, in input order. Every item's key is present, every key occurs in the input, keys are ordered by first occurrence, and the groups together hold the input exactly. |
| Grouping.AddToKeepsGrouping | src/components/GWOverview/FixturesCard.tsx:10-17 | One reduce step keeps all of the grouping properties above. |
| Grouping.GroupSizesSum | src/components/GWOverview/FixturesCard.tsx:10-17 | Group sizes add up to the input length. |
| Grouping.ItemsAtIsFilter | src/components/GWOverview/FixturesCard.tsx:29-39 | Looking up a date's group gives exactly the fixtures with that date, in input order (none for an unknown date). |
| Grouping.GroupByEmpty | src/components/GWOverview/FixturesCard.tsx:25-26 | There are no groups exactly when there are no fixtures. |
| FixturesCardSorted.SortedDates | src/components/GWOverview/FixturesCard.tsx:19 | The date keys sorted as strings: a permutation, ascending in code-unit order. |
| FixturesCardSorted.DateSections | src/components/GWOverview/FixturesCard.tsx:10-39 | "No fixtures available" is shown exactly for no fixtures. Otherwise the sections are the distinct dates present, strictly ascending as strings, each holding its fixtures in input order. |
| FixturesCardSorted.RowsCoverFixtures | src/components/GWOverview/FixturesCard.tsx:29-39 | The sections together show every fixture once. |
| Text.StrLeIsOrder | src/components/GWOverview/FixturesCard.tsx:19 | The default sort's string order is total, transitive and antisymmetric. |
| FixturesCardEntries.EntriesOrder | src/components/gw-overview/FixturesCard.tsx:31 | `Object.entries` lists the array-index keys first, ascending by value, then every other key in insertion order. The result is a permutation. |
| FixturesCardEntries.DateEntries | src/components/gw-overview/FixturesCard.tsx:20-31 | The entries are the date groups in `Object.entries` order: dates that are array indices first, ascending, then the other dates in first-appearance order. Each group holds its fixtures in input order. |
| FixturesCardEntries.RowsCoverFixtures | src/components/gw-overview/FixturesCard.tsx:31-38 | The number of match rows equals the number of fixtures. |
| FixturesCardEntries.NamedGroupsKeepOrder | src/components/gw-overview/FixturesCard.tsx:31 | When no key is an array index, `Object.entries` keeps the insertion order. |
| FixturesCardEntries.NamedDatesKeepFirstOccurrence | src/components/gw-overview/FixturesCard.tsx:20-31 | With non-numeric date strings, groups appear in order of their date's first occurrence. |
| PitchLayout.Arrange | src/components/command-center/CommandCenterPitch.tsx:9-15 | Row i holds exactly the starters labelled with the i-th label, in input order. The bench holds exactly the benched players. |
| PitchLayout.RowOfStarter | src/components/gw-overview/PitchCard.tsx:14-17 | A starter with a listed label is in exactly that row. A starter with any other label is in no row. |
| PitchLayout.CountsCoverStarters | src/components/command-center/CommandCenterPitch.tsx:12-15 | When every starter's label is listed, the row counts add up to the number of starters. |
| PitchLayout.RowsHoldEveryStarter | src/components/command-center/CommandCenterPitch.tsx:12-15 | With distinct labels and every starter's label listed, the row sizes add up to the number of starters. |
| PitchLayout.MultiplierBadge | src/components/GWOverview/PitchCard.tsx:217-219 | The "×m" badge is shown exactly when the multiplier exceeds 1, and it shows that multiplier. |
| MultiplierPitchCard.PitchView | src/components/GWOverview/PitchCard.tsx:17-22 | Four rows (FWD, MID, DEF, GK) of players with a positive multiplier and exactly that position. The bench holds the zero-multiplier players. |
| MultiplierPitchCard.ListView | src/components/GWOverview/PitchCard.tsx:13-14 | The starting XI is the players with multiplier > 0 and the bench those with multiplier = 0. No player is in both. |
| MultiplierPitchCard.ListViewPartitions | src/components/GWOverview/PitchCard.tsx:13-14 | With no negative multipliers, the two lists split the squad exactly. |
| MultiplierPitchCard.NegativeMultiplierHidden | src/components/GWOverview/PitchCard.tsx:13-22 | A player with a negative multiplier appears in neither list and in no row. |
| MultiplierPitchCard.RowsHoldStartingEleven | src/components/GWOverview/PitchCard.tsx:17-22 | When every starter's position is a row label, the rows hold the whole starting XI. |
| BenchPitchCard.PitchView | src/components/gw-overview/PitchCard.tsx:10-17 | Four rows (FWD, MID, DEF, GKP) of non-bench players with exactly that position, plus the bench players. |
| BenchPitchCard.SplitIsExact | src/components/gw-overview/PitchCard.tsx:10-11 | Starters and bench split the list exactly. |
| BenchPitchCard.RowView | src/components/gw-overview/PitchCard.tsx:57-58 | An empty row renders nothing; a non-empty row renders its players. |
| BenchPitchCard.DrawnRows | src/components/gw-overview/PitchCard.tsx:14-36 | A starter labelled GKP/DEF/MID/FWD is drawn in exactly its row. Any other label ("GK", "UNK") is drawn in none. |
| CommandCenterPitch.ChipText | src/components/command-center/CommandCenterPitch.tsx:104 | A prefix of the name: three characters, or the whole name if shorter. |
| CommandCenterPitch.PlayerChip | src/components/command-center/CommandCenterPitch.tsx:86-120 | The text is the first three characters of the name, or the whole name when it is shorter. The injury marker shows exactly when the status is not "Available". The C and V badges follow the flags. |
| CommandCenterPitch.Click | src/components/command-center/CommandCenterPitch.tsx:101-102 | A click reports the player's id exactly when the chip has the callback. |
| CommandCenterPitch.Render | src/components/command-center/CommandCenterPitch.tsx:39-76 | Four pitch rows holding one callback chip per starter of that position, in order, and a bench of chips for the bench players, none with the callback. |
| CommandCenterPitch.ClickOnlyOnStarters | src/components/command-center/CommandCenterPitch.tsx:39-76 | Any click on a rendered chip names a starter of the squad. |
| CommandCenterPitch.EveryStarterDrawnOnce | src/components/command-center/CommandCenterPitch.tsx:12-15 | With the four-valued position type, every starter is in exactly one row, and the rows hold all starters. |
| CommandCenterPitch.SplitIsExact | src/components/command-center/CommandCenterPitch.tsx:9-10 | Starters and bench split the squad exactly. |
| DiscrepancyStrip.TransferSubtitle | src/components/gw-overview/StatsStrip.tsx:59 | "-N pts" is present exactly when the cost is positive, and it reads back as −cost. |
| DiscrepancyStrip.DiscrepancyFigure | src/components/gw-overview/StatsStrip.tsx:31-38 | Present exactly when the discrepancy is non-zero. It reads back as the discrepancy and carries a "+" exactly when it is positive. |
| DiscrepancyStrip.Figures | src/components/gw-overview/StatsStrip.tsx:41-63 | Seven tiles in order: Total Points, GW Rank, Overall Rank, Team Value and Bank as money in tenths, Transfers with the cost subtitle, Bench Points. |
| DiscrepancyStrip.Strip | src/components/gw-overview/StatsStrip.tsx:9-83 | The API total shown unchanged beside the manual total. The discrepancy tile and the alert appear exactly when the discrepancy is non-zero, and the alert reads back as it. |
| DiscrepancyStrip.TileCount | src/components/gw-overview/StatsStrip.tsx:16-63 | Ten tiles with a discrepancy (the third being it), nine without. |
| DiscrepancyStrip.AlertShowsReconciliation | src/components/gw-overview/StatsStrip.tsx:67-83 | Fed by the reconciliation, the alert appears exactly when the manual and API totals differ, and it reads back as manual − API. |
| OverviewStatsStrip.BannerWithoutTile | src/components/GWOverview/StatsStrip.tsx:24-75 | The tile implies the banner. The banner appears without the tile exactly when manual points are shown but undefined. |
| OverviewStatsStrip.CostText | src/components/GWOverview/StatsStrip.tsx:50 | Reads back as −cost when the cost is positive and as 0 otherwise. |
| OverviewStatsStrip.TransfersColor | src/components/GWOverview/StatsStrip.tsx:51 | Red exactly when the cost is positive. |
| OverviewStatsStrip.Tiles | src/components/GWOverview/StatsStrip.tsx:18-63 | GW Points, then Manual Points exactly when the tile condition holds, then the six fixed tiles. |
| OverviewStatsStrip.FixedTiles | src/components/GWOverview/StatsStrip.tsx:33-63 | GW Rank, Overall Rank and Bench Points show their numbers in fixed colours. Transfers reads "made (cost)" in its cost colour. Team Value and Bank are shown as money. |
| Text.SignedRoundTrip | src/components/gw-overview/StatsStrip.tsx:76 | A signed number reads back as itself. |
| Text.FormatTenthsRoundTrip | src/components/GWOverview/StatsStrip.tsx:10-12 | Tenths printed with one decimal read back exactly. |
| Text.Money | src/components/gw-overview/StatsStrip.tsx:50-53 | "£…m" around a one-decimal figure that reads back as the tenths. |
| StatusStrip.HoursRemaining | src/components/command-center/StatusStrip.tsx:15-17 | Whole hours until the deadline: h·1h ≤ deadline − now < (h+1)·1h. It is 0 once passed, and absent for an unparseable deadline. |
| StatusStrip.DeadlineLabel | src/components/command-center/StatusStrip.tsx:69-73 | "Passed" exactly when the deadline is before now. Before the deadline, the label reads back as the hours remaining. |
| StatusStrip.CountdownReadsBack | src/components/command-center/StatusStrip.tsx:71-73 | "Dd Hh" or "Hh" reads back as the hours remaining, so days·24 + hours recomposes it. |
| StatusStrip.CountdownShrinks | src/components/command-center/StatusStrip.tsx:17 | The countdown never grows as time passes. |
| StatusStrip.Tooltip | src/components/command-center/StatusStrip.tsx:56 | "Used in X" when used, otherwise "Available" exactly when available. |
| StatusStrip.TooltipReadsBack | src/components/command-center/StatusStrip.tsx:56 | A tooltip starts with "Used in " exactly when the chip has a used gameweek, and the rest of it is that gameweek. |
| StatusStrip.ChipBadges | src/components/command-center/StatusStrip.tsx:46-61 | Always WC, FH, BB, TC in that order. Each badge is lit exactly when its chip is available, and its tooltip is that chip's tooltip. |
| GwHeader.Status | src/components/GWOverview/GWHeader.tsx:40-46 | Complete exactly when finished, In Progress exactly when not finished and past the deadline, Upcoming otherwise. |
| GwHeader.RenderHeader | src/components/GWOverview/GWHeader.tsx:15-46 | The subtitle says "Finished" exactly when finished. Otherwise the "(Passed)" marker shows exactly when the status is In Progress. |
| GwHeader.StatusAdvances | src/components/GWOverview/GWHeader.tsx:9 | The status only moves forward (Upcoming → In Progress → Complete) as time passes. |
| Session.Initial | src/context/TeamIdContext.tsx:12-14 | The team id is the stored value, or absent when nothing is stored. |
| Session.SetTeamId | src/context/TeamIdContext.tsx:16-19 | State and storage both become the id; other keys are unchanged. |
| Session.ClearTeamId | src/context/TeamIdContext.tsx:21-24 | The state becomes null and the key is removed; other keys are unchanged. |
| Session.AlwaysAgrees | src/context/TeamIdContext.tsx:12-24 | After any sequence of set/clear from the initial load, the state and the stored value agree. |
| Session.UseTeamId | src/context/TeamIdContext.tsx:34-37 | Throws exactly outside the provider. |
| Session.Submit | src/pages/LoginPage.tsx:10-16 | Blank input changes nothing and does not navigate. Otherwise the trimmed id is stored and navigation replaces history with "/". |
| Session.LoginStoresCleanId | src/pages/LoginPage.tsx:12-14 | Login succeeds exactly when the input has a non-whitespace character. The stored id is then non-empty and has no surrounding whitespace. |
| Text.TrimIdempotent | src/pages/LoginPage.tsx:12 | Trimming twice is trimming once. |
| Session.Guard | src/components/ProtectedRoute.tsx:7-11 | The outlet renders exactly for a non-empty id. Otherwise the guard redirects to "/login", replacing history. |
| Session.GuardFollowsSession | src/components/ProtectedRoute.tsx:7-11 | After a successful login the guard lets the user through; after clearing it redirects. |

## Left out

- Network, async and effects are not modelled. Fetch calls, `Promise.all`, loading flags, the `cancelled`/`isMounted` guards, `console.error` and the navigation side effect are absent. Each API response is an input value, and a failed fetch that the code absorbs is an `Option`.
- Failed loads are not modelled. Network failures surfaced as "Failed to fetch FPL data" (src/hooks/useFplData.ts) and the other hooks' catch-all error messages come only from I/O.
- elementTypeToPosition and getPlayerPhotoUrl are not part of this model. The rows keep the element type and the photo code those helpers would receive.
- Floating point is not modelled. This covers the `/10` million conversions, `toFixed`, `toLocaleString` (modelled as plain decimals without grouping separators) and the StatusStrip's float bank and team value. Money is held as integer tenths instead.
- Difficulty.OpponentDifficulty: a NaN explicit rating cannot be written as a Dafny real, so that path (falls through to the table) is covered only for finite values.
- Dates are not computed. `new Date(...)` parsing becomes an optional millisecond timestamp, and `toLocaleDateString` output becomes a parameter (`dateLabel`, `dateText`). The current time is a parameter.
- Strings are sequences of characters, not UTF-16 code units. This matters for `slice(0, 3)` and the default sort's order when a name holds characters outside the Basic Multilingual Plane.
- The `acc[date]` reduces and the TEAM_DIFFICULTY / TEAM_COLORS lookups are modelled as maps. Keys that name inherited object properties ("constructor", "__proto__") are therefore not modelled.
- xPts is an integer. Auto-captain only compares it.
- Action timestamps are not modelled. The sandbox log records what each action did, not when.
- handleAutoBench, handleApplyToTeam and handleRollTransfer are stubs or tab switches and are not modelled. The same goes for mapUiPlayerToEnhanced and the page's initial-load effect, which turn mock rows into the starting squad.
- Sandbox.Undo: the squad is not recomputed after an undo (the handler's own comment leaves this to do). The model keeps that behaviour.
- The GWOverview stats strip reads fields the hook's stats type does not declare. It is modelled over the fields it reads.
- CSS class strings are not modelled, except where they carry meaning (difficulty badges, the transfers colour, the highlighted manual tile).
- The rest of the presentational components, the mock data and the type declarations are not modelled.
- RankedList.View: a failure with an empty message shows the empty state because the card loads once, on mount, so its player list is still empty at that point. A card re-rendered with an earlier list would show that list instead, and this is not modelled.
- CommandCenterData.LoadPlan: the plan state holds the error, the gameweek, the squad and the fixture rows. The hook's loading flag, `gwInfo` and the raw `bootstrap`/`myTeam` responses are not part of it.
