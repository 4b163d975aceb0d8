# GeoGuesser game core, modelled in Dafny

GeoGuesser is a street-level geography game. The player gets five rounds.
Each round shows a panorama and the player places a guess on a world map.
The distance to the real place gives the round's score. The final screen
grades the total and shows a live leaderboard.

This project models the game's logic and states what it guarantees:

- the page's game session: start, the time-attack countdown and expiry,
  guesses, next round, play again;
- the server routes:
  - score submission with its anti-cheat rules and in-memory leaderboard;
  - the random-location probe loop;
  - the Mapillary nearest-image lookup;
  - the reverse-geocoding cache;
- the presentation rules of the final results, the leaderboard, the header,
  the progress bar, the guess map and the panorama viewer;
- the SpacetimeDB `score` table and its `submit_score` reducer.

Where the source mutates state, the model is a class with `modifies`
clauses:

- the game session, `GamePage.GameSession`;
- the drag handlers, `PanoramaViewer.DragScroller`;
- the guess map, `WorldMap.GuessMap`;
- the submit route's board, `ScoreSubmit.Board`;
- the geocoder's memo and cache, `ReverseGeocode.Geocoder`;
- the score table, `ScoreTable.Table`.

The pure rules are functions with lemmas.

Everything random or external is a parameter:

- the scoring library (`calculateDistance`, `calculateScore`, the curated
  locations);
- fetch results and Redis reads;
- the rate limiter and environment variables;
- clocks and `Math.random`.

No curve or bound is assumed for these inputs. JavaScript numbers are
`real`, or `int` where the source only stores whole numbers. `undefined` and
`null` are `Option.None`. A string is truthy when it is present and not empty.

Modules, one per source file:

- `Basics`: Option, truthiness, decimal rendering.
- `GameTypes`: the shared records.
- `ScoreOrder`: the stable descending sort both leaderboards use.
- `GamePage`, `ScoreSubmit`, `FinalResults`, `LeaderboardView`, `WorldMap`,
  `PanoramaViewer`, `GameHeader`, `ProgressBar`, `ReverseGeocode`,
  `RandomLocation`, `MapillaryImagery`, `ScoreTable`.

## Model

| member | source | states |
|---|---|---|
| `GamePage.GameSession.constructor` | src/app/page.tsx:93-106 | The page opens on the home screen in the initial state (round 0, score 0, no results, no location), with the map hidden. |
| `GamePage.GameSession.PlayAgain` | src/app/page.tsx:273-287 | Restores exactly the initial state and the home screen, and hides the map. |
| `GamePage.ShotOf` | src/app/page.tsx:109-115 | A reply yields a shot iff it is ok and found, and then the shot carries the reply's provider, ids and coordinates. |
| `GamePage.Shots` | src/app/page.tsx:123 | `Promise.all` fails iff some fetch throws. Otherwise there is one optional shot per fetch. |
| `GamePage.LocationFromShot` | src/app/page.tsx:127-139 | A location built from a shot has as id the shot's image id when that is non-empty, otherwise `kv-<i>`. Its name is "Mystery Location", its difficulty "medium" and it has no hints. It takes the shot's `lon` as its `lng`, copies provider and image fields, and has no panorama URL. |
| `GamePage.AssembleLocations` | src/app/page.tsx:125-140 | One location per slot: the fallback at the same index when the shot is missing (none past the list's end), otherwise the location built from the shot. |
| `GamePage.ShotIdsDistinct` | src/app/page.tsx:128 | Slots without an image id get distinct `kv-<i>` identifiers. |
| `GamePage.TimeLimitFor` | src/app/page.tsx:152-153 | A limit exists iff the mode is time attack: the chosen duration, or 60 s by default. |
| `GamePage.StartedState` | src/app/page.tsx:141-154 | The started state satisfies the session invariant: total equals the sum of results, round in range. |
| `GamePage.GameSession.StartGame` | src/app/page.tsx:118-161 | On a throwing fetch nothing changes. Otherwise round 1, score 0, no results, the first slot's location, the time limit, and the playing screen. |
| `GamePage.GameSession.Tick` | src/app/page.tsx:164-171 | Subtracts exactly one second when time attack is playing with time left above 0. Otherwise it changes nothing. |
| `GamePage.GameSession.ExpireRound` | src/app/page.tsx:174-194 | When time attack runs out on a round with a location, it appends a 0-point result (guess 0,0, distance 20000) for the current round and shows results. The total is unchanged. |
| `GamePage.Recorded` | src/app/page.tsx:215-220 | Appending a result keeps the invariant and adds exactly its points to the total. |
| `GamePage.GameSession.HandleGuess` | src/app/page.tsx:197-223 | Without a location, nothing changes. Otherwise it appends one result tagged with the current round, adds its points, stores the guess and shows results. |
| `GamePage.GameSession.NextRound` | src/app/page.tsx:226-249 | When `IsLastRound` held (the results screen's `isLastRound`), it ends the game on the final screen with the round unchanged. Otherwise it advances the round, loads that slot's location (or none), clears the guess, resets the time-attack clock and shows the playing screen. |
| `GamePage.GameSession.ShowMap` | src/app/page.tsx:252-254 | The map overlay is shown. |
| `GamePage.GameSession.HideMap` | src/app/page.tsx:255 | The map overlay is hidden. |
| `GamePage.GameSession.CurrentRoundResult` | src/app/page.tsx:290 | The result on the results screen is the last recorded one, absent when there is none. |
| `GamePage.GameSession.HeaderTimer` | src/app/page.tsx:305-310 | The header shows a timer iff the game is time attack and has a time left. |
| `GamePage.ViewerShot` | src/app/page.tsx:315-321 | The viewer gets a shot iff the location names a provider. |
| `GamePage.MapillaryShotShownInMapillaryViewer` | src/app/page.tsx:315-322 | A location from a Mapillary shot with an id is shown in the Mapillary viewer on that image. |
| `GamePage.CuratedPanoramaIsLegacy` | src/app/page.tsx:315-322 | A curated location with a panorama and no provider is shown in the legacy drag viewer, with its handlers attached. |
| `GamePage.GuessThenNext` | src/app/page.tsx:197-249 | A guess followed by "next" records exactly one result for the current location and guess, then advances or ends the game. |
| `GamePage.PlayFullGame` | src/app/page.tsx:118-249 | Five guesses end on the final screen with five results, in round order, for each round's location and guess. The total is their sum. |
| `GameTypes.SumScoresAppend` | src/app/page.tsx:218-219 | Appending a result to the list adds exactly its score to the sum of scores. |
| `ScoreOrder.SortByScore` | src/app/api/score/submit/route.ts:70 | The sort's result is ordered by non-increasing score and is a permutation of its input. |
| `ScoreSubmit.PlayerName` | src/app/api/score/submit/route.ts:32 | The name has at most 32 characters, counted as Unicode scalar values. A missing or empty name is "Player", and a name of up to 32 characters is kept whole. |
| `ScoreSubmit.Sanitised` | src/app/api/score/submit/route.ts:47-49 | Time, moves and path are floored and never negative. Missing values count as 0. |
| `ScoreSubmit.Evaluate` | src/app/api/score/submit/route.ts:35-58 | With both coordinates, the score and distance are recomputed and `flagged` holds iff one of the three rules fires. Without them, the client total is trusted (floored, at least 0), the distance is 0 and nothing is flagged. |
| `ScoreSubmit.FallbackScore` | src/app/api/score/submit/route.ts:56 | The low-trust score is at least 0. It is the floor of a non-negative client total, and 0 for a missing or negative one. |
| `ScoreSubmit.FallbackTrustsClient` | src/app/api/score/submit/route.ts:55-56 | Any non-negative whole total the client declares is recorded as is. |
| `ScoreSubmit.NearPerfectRuleIsIndependent` | src/app/api/score/submit/route.ts:51-53 | 4900 points after 3 s breaks the near-perfect rule but not the fast-score rule. |
| `ScoreSubmit.FastRuleIsIndependent` | src/app/api/score/submit/route.ts:51-53 | 3500 points after 1 s breaks the fast-score rule but not the near-perfect rule. |
| `ScoreSubmit.MovementAloneFlags` | src/app/api/score/submit/route.ts:52 | Any movement in no-move mode breaks the movement rule. |
| `ScoreSubmit.RoundsOf` | src/app/api/score/submit/route.ts:64 | The stored round count is always at least 1 and is the floor of any value from 1 up. |
| `ScoreSubmit.RoundHalfUp` | src/app/api/score/submit/route.ts:66 | The stored average distance is the nearest integer, with halves rounded up. |
| `ScoreSubmit.MakeEntry` | src/app/api/score/submit/route.ts:60-67 | The entry carries the computed score, a round count of at least 1, a name of at most 32 characters and the second clock reading. |
| `ScoreSubmit.DropFirstHundred` | src/app/api/score/submit/route.ts:71 | `splice(0, 100)` as written leaves nothing on a board of up to 100 entries. On a longer board it leaves only the entries past the first 100. |
| `ScoreSubmit.TopHundred` | src/app/api/score/submit/route.ts:77 | The first min(100, n) entries, in order. |
| `ScoreSubmit.TopHundredKeepsBest` | src/app/api/score/submit/route.ts:77 | On a sorted board, the first hundred are entries of the board, the whole board when it is short, and no dropped entry outscores a kept one. |
| `ScoreSubmit.SpliceKeepsTheWorst` | src/app/api/score/submit/route.ts:69-71 | On a sorted board over 100 entries, the as-written splice keeps exactly the complement of the top hundred, and nothing it keeps outscores anything it removed. |
| `ScoreSubmit.Board.constructor` | src/app/api/score/submit/route.ts:28 | The board starts empty. |
| `ScoreSubmit.Board.Post` | src/app/api/score/submit/route.ts:30-74 | The answer is always ok. The entry has the sanitised name and rounds, id `<now>-<suffix>`, the recomputed or trusted score and the rounded distance, and `flagged` follows the rules. The new board is the old one pushed, sorted and spliced, so it stays empty. |
| `ScoreSubmit.Board.Get` | src/app/api/score/submit/route.ts:76-78 | At most 100 entries, and none at all, since the board is always empty. |
| `ScoreSubmit.SubmitOnceThenList` | src/app/api/score/submit/route.ts:28-78 | On a fresh server, a submission is accepted, yet the listing that follows is empty. |
| `FinalResults.PerformanceLevel` | src/components/game/FinalResults.tsx:36-68 | Each tier holds exactly on its band: 90 and up Legendary, [75, 90) Excellent, [60, 75) Great, [40, 60) Good, below 40 Keep Learning. Thresholds belong to the higher tier. |
| `FinalResults.PerformanceIsMonotone` | src/components/game/FinalResults.tsx:37-61 | A higher percentage never earns a lower tier. |
| `FinalResults.BestRound` | src/components/game/FinalResults.tsx:28-30 | There is no best round iff the results are empty, which is where `reduce` throws. |
| `FinalResults.ReduceBestIsEarliestBest` | src/components/game/FinalResults.tsx:28-30 | The fold's accumulator is always the earliest highest-scoring result of the prefix it has seen. |
| `FinalResults.BestRoundIsEarliestBest` | src/components/game/FinalResults.tsx:28-30 | The best round scores at least every round, and among ties it is the earliest. |
| `FinalResults.MaxPossibleScore` | src/components/game/FinalResults.tsx:31 | The maximum of a non-empty game is at least 5000 points. |
| `FinalResults.Accuracy` | src/components/game/FinalResults.tsx:32 | Accuracy is 100 at the maximum total and 0 at a zero total. |
| `FinalResults.Summarise` | src/components/game/FinalResults.tsx:26-70 | A summary exists iff there are results. Its maximum is 5000 per round and its tier is the tier of its accuracy. |
| `FinalResults.LegendaryThreshold` | src/components/game/FinalResults.tsx:31-37 | The game is Legendary iff it averages at least 4500 points a round. It is Keep Learning iff it averages under 2000. |
| `FinalResults.PerfectGameIsLegendary` | src/components/game/FinalResults.tsx:31-37 | With the total as the sum of results, five perfect rounds give accuracy 100 and Legendary. |
| `LeaderboardView.RowEntry` | src/components/game/Leaderboard.tsx:29-36 | A row maps to an entry with id `<name>-<tsMs>-<idx>`, and every missing number becomes 0. |
| `LeaderboardView.Snapshot` | src/components/game/Leaderboard.tsx:27-37 | One entry per row, mapped with its position. |
| `LeaderboardView.RowIdsDistinct` | src/components/game/Leaderboard.tsx:30 | Rows at different positions never share an id, whatever their names and times. |
| `LeaderboardView.SnapshotIdsDistinct` | src/components/game/Leaderboard.tsx:29-30 | All ids of one snapshot are distinct. |
| `LeaderboardView.TableSnapshotCopiesRows` | src/components/game/Leaderboard.tsx:28-36 | Table rows are copied verbatim. Because the table's timestamp is always 0, the ids read `<name>-0-<idx>`. |
| `LeaderboardView.TopTen` | src/components/game/Leaderboard.tsx:76-79 | Shows min(10, n) entries, sorted by non-increasing score, drawn from the remote list (a missing list counts as empty). |
| `LeaderboardView.TopTenKeepsBest` | src/components/game/Leaderboard.tsx:77-78 | No omitted entry outscores a shown one. |
| `LeaderboardView.ShortListShownWhole` | src/components/game/Leaderboard.tsx:78 | A list of 10 or fewer entries is shown whole, only reordered. |
| `LeaderboardView.MedalIcon` | src/components/game/Leaderboard.tsx:81-92 | Rank 1 gets the trophy, 2 the medal and 3 the award, each exactly. Every other rank shows its number. |
| `LeaderboardView.RowIcon` | src/components/game/Leaderboard.tsx:119-120 | The first three rows get icons. The row at index i ≥ 3 shows rank i + 1. |
| `LeaderboardView.ZeroScoreHighlightsNothing` | src/components/game/Leaderboard.tsx:121 | A current score of 0, or none, highlights no row, even one that scored 0. |
| `LeaderboardView.Highlighted` | src/components/game/Leaderboard.tsx:119-121 | The highlighted rows are exactly the shown rows whose score equals a truthy current score. |
| `WorldMap.GuessMap.constructor` | src/components/game/WorldMap.tsx:40-41 | No marker is pending initially. |
| `WorldMap.GuessMap.HandlePositionClick` | src/components/game/WorldMap.tsx:44-48 | A click replaces any pending marker. When disabled, nothing changes. |
| `WorldMap.GuessMap.HandleConfirmGuess` | src/components/game/WorldMap.tsx:50-55 | `onGuess` is called iff a marker was pending, with its coordinates. Afterwards nothing is pending. |
| `WorldMap.GuessMap.HandleClearGuess` | src/components/game/WorldMap.tsx:57-59 | Nothing is pending afterwards. |
| `WorldMap.ClickTwiceThenConfirm` | src/components/game/WorldMap.tsx:44-128 | After two clicks, Confirm reports the second, a repeat Confirm reports nothing, and the buttons are gone. |
| `WorldMap.ClickDisabledMap` | src/components/game/WorldMap.tsx:44-128 | A disabled map ignores clicks and shows no marker, no buttons and no hint. |
| `WorldMap.ClickThenClear` | src/components/game/WorldMap.tsx:44-128 | Clear after a click removes the marker the click drew and brings the hint back. Confirm then reports nothing. |
| `PanoramaViewer.SelectViewer` | src/components/game/PanoramaViewer.tsx:91-131 | Mapillary viewer iff Mapillary with an image id. Otherwise a static image iff KartaView with an image, preferring the shot's own URL. Otherwise the legacy container. |
| `PanoramaViewer.IsLegacy` | src/components/game/PanoramaViewer.tsx:23-26 | Whenever `isLegacy` holds, so the drag handlers are attached, the legacy container is what is rendered. |
| `PanoramaViewer.LegacyContainerWithoutHandlers` | src/components/game/PanoramaViewer.tsx:23-26 | The converse fails: a Mapillary shot without an id falls through to the legacy container, which has no drag handlers attached. |
| `PanoramaViewer.DragScroll` | src/components/game/PanoramaViewer.tsx:48-50 | Moving right of the start scrolls left and moving left scrolls right. At the start point the scroll is the snapshot. |
| `PanoramaViewer.DragScroller.constructor` | src/components/game/PanoramaViewer.tsx:25-31 | Handlers are attached iff `isLegacy`. Not dragging, cursor grab. |
| `PanoramaViewer.DragScroller.MouseDown` | src/components/game/PanoramaViewer.tsx:33-38 | Starts a drag at the touch or mouse position, snapshots the scroll and sets the grabbing cursor (only when attached). |
| `PanoramaViewer.DragScroller.MouseUp` | src/components/game/PanoramaViewer.tsx:40-43 | Ends the drag and restores the grab cursor. It also serves `mouseleave`. |
| `PanoramaViewer.DragScroller.MouseMove` | src/components/game/PanoramaViewer.tsx:45-51 | While dragging, scroll = snapshot − 2·(x − start). Otherwise the scroll is unchanged. |
| `PanoramaViewer.DragScroller.TouchStart` | src/components/game/PanoramaViewer.tsx:53-57 | Like mousedown, without the cursor change. |
| `PanoramaViewer.DragScroller.TouchEnd` | src/components/game/PanoramaViewer.tsx:59-61 | Ends the drag. |
| `PanoramaViewer.DragScroller.TouchMove` | src/components/game/PanoramaViewer.tsx:63-68 | Like mousemove. |
| `PanoramaViewer.DragThereAndBack` | src/components/game/PanoramaViewer.tsx:33-51 | A drag that wanders and returns to its start restores the scroll. A move after release scrolls nothing. |
| `PanoramaViewer.DragWithoutHandlers` | src/components/game/PanoramaViewer.tsx:23-26 | With a provider shot no handler is attached, so touches never scroll. |
| `GameHeader.Progress` | src/components/game/GameHeader.tsx:14 | The progress lies in [0, 100] during a game and is 100 on the last round. |
| `GameHeader.ProgressNeedsNoClamping` | src/components/game/GameHeader.tsx:14-35 | The progress bar draws the header's progress unclamped. |
| `GameHeader.TimeClass` | src/components/game/GameHeader.tsx:15-18 | Red iff there is a time and it is at most 5. Otherwise gray. |
| `GameHeader.DisplayedSeconds` | src/components/game/GameHeader.tsx:44 | Never negative, the floor of a non-negative time, and 0 below one second. |
| `GameHeader.TimerView` | src/components/game/GameHeader.tsx:40-46 | A timer is drawn iff the time is a number, with the displayed seconds and colour. |
| `GameHeader.RedTimerReadsAtMostFive` | src/components/game/GameHeader.tsx:15-44 | A red timer reads 0 to 5 seconds and a gray one at least 5. |
| `ProgressBar.Clamp` | src/components/ui/progress.tsx:3-4 | Always in [0, 100], the identity on [0, 100], 0 below, 100 above, and 0 by default. |
| `ProgressBar.ClampIdempotent` | src/components/ui/progress.tsx:4 | Clamping twice is clamping once. |
| `ProgressBar.ClampMonotone` | src/components/ui/progress.tsx:4 | A larger value never gives a smaller width. |
| `ReverseGeocode.CacheKey` | src/app/api/geocode/reverse/route.ts:44 | The key is the `revgeo:` prefix, then the raw `lat`, a colon and the raw `lon`. |
| `ReverseGeocode.SpellingsAreDistinctKeys` | src/app/api/geocode/reverse/route.ts:56 | When `lat` has no colon, different query strings (two spellings of one coordinate, say) always give different keys. |
| `ReverseGeocode.KeysCanCollide` | src/app/api/geocode/reverse/route.ts:56 | A colon inside a parameter makes two different queries share a key. |
| `ReverseGeocode.Geocoder.constructor` | src/app/api/geocode/reverse/route.ts:4-29 | Undecided configuration, empty cache. |
| `ReverseGeocode.Geocoder.EnsureUpstash` | src/app/api/geocode/reverse/route.ts:10-27 | The first call decides (both variables set and the load does not throw) and remembers. Later calls return the remembered value. |
| `ReverseGeocode.Geocoder.Get` | src/app/api/geocode/reverse/route.ts:31-68 | Missing or empty coordinates give 400 and nothing else is touched. With Upstash: a denied rate limit gives 429 before any read, then a Redis hit, else the fetch (502 if not ok). Otherwise an unexpired entry is served without a fetch, and a successful miss stores `(now + 600000, body)` under its key alone. |
| `ReverseGeocode.RepeatQuery` | src/app/api/geocode/reverse/route.ts:56-67 | A repeat within ten minutes is served from the cache with no fetch. One ten minutes later or more is fetched again. |
| `ReverseGeocode.DecisionIsRemembered` | src/app/api/geocode/reverse/route.ts:10-27 | A process that started without Upstash keeps that decision after the environment changes. |
| `RandomLocation.ProbeCoordinatesInRange` | src/app/api/location/random/route.ts:4-14 | Given draws in [0, 1), probes lie in latitude [−55, 75) and longitude [−180, 180). |
| `RandomLocation.Fallback` | src/app/api/location/random/route.ts:27-32 | Not found iff there is no curated location. Otherwise the answer is KartaView with the panorama URL and `lon := lng`. |
| `RandomLocation.Get` | src/app/api/location/random/route.ts:8-33 | 1 to 8 probes. Every probe before the last was rejected. An accepted last probe is the answer, with its fields copied and provider Mapillary. Otherwise all 8 failed and the answer is the fallback. |
| `RandomLocation.AcceptsImageryAnswer` | src/app/api/location/random/route.ts:17-19 | A probe of the imagery endpoint is accepted iff it found an image with a non-empty id. |
| `MapillaryImagery.QueryNumber` | src/app/api/imagery/mapillary/route.ts:19-20 | An absent parameter reads as 0. A present one is parsed. |
| `MapillaryImagery.TileCountIsTwoToTheZoom` | src/app/api/imagery/mapillary/route.ts:5-8 | The grid has 2^14 columns. |
| `MapillaryImagery.TileX` | src/app/api/imagery/mapillary/route.ts:7-8 | Longitudes in [−180, 180) fall in a column of the grid. |
| `MapillaryImagery.TileXMonotone` | src/app/api/imagery/mapillary/route.ts:7-8 | A longitude further east never lands in a column further west. |
| `MapillaryImagery.TileXAtAntimeridian` | src/app/api/imagery/mapillary/route.ts:8 | Longitude 180 lands one column past the grid: nothing wraps it. |
| `MapillaryImagery.NearestIsUnique` | src/app/api/imagery/mapillary/route.ts:40-48 | The earliest nearest feature is unique. |
| `MapillaryImagery.NearestFeature` | src/app/api/imagery/mapillary/route.ts:40-48 | The chosen feature is at least as near as every feature, and strictly nearer than every earlier one. |
| `MapillaryImagery.AnswerFor` | src/app/api/imagery/mapillary/route.ts:50-53 | Found iff the chosen feature has a non-empty id, with its coordinates. |
| `MapillaryImagery.Get` | src/app/api/imagery/mapillary/route.ts:16-57 | 400 for a non-numeric coordinate, then 500 without a token, 502 for a tile that is not ok, and 500 on a throw. An absent or empty layer gives not found. Otherwise the answer is the nearest feature's. |
| `ScoreTable.RowOf` | stdb/leaderboard/spacetimedb/src/lib.rs:29 | The row copies its arguments verbatim and has timestamp 0. |
| `ScoreTable.Table.constructor` | stdb/leaderboard/spacetimedb/src/lib.rs:3-10 | The table starts empty. |
| `ScoreTable.Table.Init` | stdb/leaderboard/spacetimedb/src/lib.rs:12-15 | Changes nothing. |
| `ScoreTable.Table.IdentityConnected` | stdb/leaderboard/spacetimedb/src/lib.rs:17-20 | Changes nothing. |
| `ScoreTable.Table.IdentityDisconnected` | stdb/leaderboard/spacetimedb/src/lib.rs:22-25 | Changes nothing. |
| `ScoreTable.InsertRow` | stdb/leaderboard/spacetimedb/src/lib.rs:30 | Set insertion: the row is present afterwards, nothing else is added or lost, and the rows stay free of duplicates. A row already present changes nothing. |
| `ScoreTable.InsertRowIdempotent` | stdb/leaderboard/spacetimedb/src/lib.rs:30 | Inserting the same row twice is inserting it once. |
| `ScoreTable.Table.SubmitScore` | stdb/leaderboard/spacetimedb/src/lib.rs:27-31 | Inserts the row into the table's set of rows, keeping the table free of duplicates with every timestamp 0. |
| `ScoreTable.SubmitTwice` | stdb/leaderboard/spacetimedb/src/lib.rs:27-31 | Because the timestamp is always 0, the same submission made twice is stored once, negative values included. |

## Left out

- The scoring library (`calculateDistance`, `calculateScore`, `formatDistance`, `getPerformanceMessage`, `calculateAverageDistance`) and `getRandomLocations` are not part of this model. They are parameters with no assumed curve or bound.
- Floating point: NaN, infinities and rounding are not modelled. Numbers are exact reals, so `Number.isNaN` is an optional parse result and `typeof x === 'number'` is presence.
- The Mapillary tile's `y` coordinate (log, tan, cos) and the cosine inside each feature's squared distance are left out. The tile fetch takes the `x` column and the latitude, and each feature's squared distance is given.
- Vector-tile decoding, every fetch, Nominatim, the Upstash client internals, SpacetimeDB connections and subscriptions, and `async`/`await` are left out. Each answer is an input.
- ReverseGeocode.Geocoder.Get: Redis writes (`redis.set` with a 600 s expiry), the rate limiter's window and a thrown fetch are not modelled. Each Redis read and rate-limit answer is a given function of its key.
- GamePage.GameSession.StartGame: the `loading` flag, the concurrency of `Promise.all` and the `setInterval`/`setTimeout` scheduling are not modelled. The countdown is one `Tick` per second and the deferred map show is immediate.
- The Farcaster SDK, `addMiniApp`, sharing to the clipboard and all rendering, animation and styling are left out.
- The submission of the final score to SpacetimeDB from the final results screen is left out, because it is a fire-and-forget network call.
- The leaderboard's subscription lifecycle (snapshot on insert, delete or applied; null on error) and its "Live Leaderboard" heading are left out. The model takes the row list as an input.
- ScoreOrder.SortByScore: the contracts state order and permutation, but not stability, although the insertion order is stable like the JavaScript sort.
- PanoramaViewer.DragScroller.MouseMove: the page's clamping of `scrollLeft` to the scrollable range is left out, because it is done by the browser.
- PanoramaViewer.SelectViewer: the `allowMove` overlay and the `onLoad` callback are left out, because they are rendering only.
- WorldMap.GuessMap.constructor: the page never passes `disabled`, so in the game the map is always enabled. Both settings are modelled.
- GameHeader.Progress: a call with 0 total rounds is excluded, because it gives NaN or infinity in JavaScript. The page always passes 5.
- FinalResults.Summarise: the tier's emoji is left out. The title and message are `FinalResults.Title` and `FinalResults.Message`.
- FinalResults.Accuracy: a call with zero rounds is excluded, because the screen's `reduce` over an empty result list throws before the accuracy is computed.
- MapillaryImagery.Get: a thrown fetch and a thrown decoding are one outcome, answered with 500. The model does not tell them apart.
- ScoreSubmit.PlayerName: the 32-character limit counts Unicode scalar values, but `slice` counts UTF-16 code units. A name with characters outside the Basic Multilingual Plane is cut shorter by the source, possibly inside a surrogate pair, which a Dafny string cannot hold.
- ScoreTable.Table.SubmitScore: that a SpacetimeDB table stores a set of rows, so an identical insert adds nothing, is the library's documented behaviour. It is not visible in the module's own text.
- ScoreSubmit.Board.Post: the random id suffix is a parameter. `Math.random().toString(36)` is not modelled.

## Findings

| source | as written | input that shows it | evidently intended | confidence | as-written member | corrected member |
|---|---|---|---|---|---|---|
| src/app/api/score/submit/route.ts:71 | `leaderboard.splice(0, 100)` removes the first 100 entries of the sorted board, which are the best ones. | A first `POST` on a fresh server: it answers `ok` with its entry, yet the following `GET` lists nothing. | Keep the top 100, as the comment says and as `GET`'s `slice(0, 100)` does. | not executed | `ScoreSubmit.SubmitOnceThenList` | `ScoreSubmit.TopHundredKeepsBest` |
