# osu! results screen: leaderboard merge and retry gate

A Dafny model of the logic in osu!'s `ResultsScreen`, the screen shown after a play.
The screen is built with the local score and an `allowRetry` flag, which defaults to true.
Its `load` step builds the score panel list, seeded with the local score.
It adds a retry button and a retry hotkey only when a `Player` was resolved and retrying is allowed.
Its `LoadComplete` step queues one leaderboard request for the local score's beatmap and ruleset.
When that request succeeds, its callback walks the returned scores in order.
It skips every score whose `OnlineScoreID` equals the local score's and hands each other score to `AddScore`.

Files:
- `scoring.dfy` (module `Scoring`): the score record and its nullable online identifier.
- `score_merge.dfy` (module `ScoreMerge`): `ScoresToAdd`, the specification of what one response adds, with its properties.
- `results_screen.dfy` (module `Ranking`): the `ResultsScreen` class (constructor, `Load`, `LoadComplete`, the success callback `ApplyScores`, the hotkey action `PressRetryHotkey`), a `Player` that records `Restart` calls, and client methods that run the flows.

`OnlineScoreID` is a `long?`, so it is modelled as `Option<int64>`. C#'s lifted `==` on `long?` is true for two nulls, so it is exactly `==` on `Option`. As a consequence, a local score with no online identifier still filters: every remote score without one is dropped (`ScoreMerge.AbsentLocalIdDropsAbsentRemoteIds`).

Points worth knowing about the code:
- The screen has no lifecycle, no request cancellation and no discarding of late results. `OnExiting` only fades the background, and the success callback runs without any state check.
- Only the local identifier is filtered. Duplicates among remote scores are all kept (`ScoreMerge.RemoteDuplicatesKept`).

## Model

| member | source | states |
|---|---|---|
| `ScoreMerge.ScoresToAdd` | osu.Game/Screens/Ranking/ResultsScreen.cs:125-131 | a response never contributes more scores than it holds |
| `ScoreMerge.ScoresToAddLength` | osu.Game/Screens/Ranking/ResultsScreen.cs:125-131 | the number of scores added is the response length minus the number of response scores carrying the local identifier; an empty response adds nothing |
| `ScoreMerge.ScoresToAddMembership` | osu.Game/Screens/Ranking/ResultsScreen.cs:125-131 | a score is added if and only if it is in the response and its identifier differs from the local score's |
| `ScoreMerge.ScoresToAddExcludesLocal` | osu.Game/Screens/Ranking/ResultsScreen.cs:127-128 | no added score carries the local score's online identifier |
| `ScoreMerge.ScoresToAddConcat` | osu.Game/Screens/Ranking/ResultsScreen.cs:125-131 | the scores are examined one by one in response order: a prefix's contribution comes before the rest's |
| `ScoreMerge.ScoresToAddKeepsAll` | osu.Game/Screens/Ranking/ResultsScreen.cs:127-130 | the whole response is added unchanged if and only if none of its scores carries the local identifier |
| `ScoreMerge.ScoresToAddIdempotent` | osu.Game/Screens/Ranking/ResultsScreen.cs:127-130 | filtering the added scores again by the local identifier removes nothing |
| `ScoreMerge.RemoteDuplicatesKept` | osu.Game/Screens/Ranking/ResultsScreen.cs:127 | every remote score whose identifier is not the local one is added as often as it occurs in the response: no deduplication among remote scores |
| `ScoreMerge.SameRemoteIdBothAdded` | osu.Game/Screens/Ranking/ResultsScreen.cs:127 | two remote scores sharing a non-local identifier are both added, in order |
| `ScoreMerge.AbsentLocalIdDropsAbsentRemoteIds` | osu.Game/Screens/Ranking/ResultsScreen.cs:127-128 | when the local score has no online identifier, every added score has one: `null == null` drops remote scores without an identifier |
| `Ranking.ResultsScreen.constructor` | osu.Game/Screens/Ranking/ResultsScreen.cs:51-55 | the screen keeps the local score and the `allowRetry` flag; nothing is loaded or queued yet |
| `Ranking.ResultsScreen.Load` | osu.Game/Screens/Ranking/ResultsScreen.cs:66-114 | the panel list starts as exactly the local score; the retry button and hotkey are added if and only if a player was resolved and `allowRetry` holds |
| `Ranking.ResultsScreen.LoadComplete` | osu.Game/Screens/Ranking/ResultsScreen.cs:117-135 | runs once after `load`; afterwards the queue holds exactly one request, keyed by the local score's beatmap and ruleset |
| `Ranking.ResultsScreen.AddScore` | osu.Game/Screens/Ranking/ResultsScreen.cs:130 | one call hands exactly one score to the panel list, after the ones already there |
| `Ranking.ResultsScreen.ApplyScores` | osu.Game/Screens/Ranking/ResultsScreen.cs:123-132 | runs only after the request was queued; the panel list becomes its old contents followed by `ScoresToAdd` of the response; nothing already there is removed or replaced, the local score stays first, and no later entry carries the local identifier |
| `Ranking.ResultsScreen.PressRetryHotkey` | osu.Game/Screens/Ranking/ResultsScreen.cs:105-112 | `Restart` is invoked exactly once if the hotkey overlay was added and the screen is current, and not at all otherwise |
| `Ranking.DefaultAllowsRetry` | osu.Game/Screens/Ranking/ResultsScreen.cs:51 | a screen built without an `allowRetry` argument allows retrying |
| `Ranking.RetryFromResults` | osu.Game/Screens/Ranking/ResultsScreen.cs:101-112 | after `load`, pressing the hotkey invokes the player's `Restart` exactly once if a player was resolved, retrying is allowed and the screen is current, and not at all otherwise |
| `Ranking.LeaderboardScenario` | osu.Game/Screens/Ranking/ResultsScreen.cs:117-135 | local score 42 and response [7, 42, 9]: one request keyed by the local beatmap and ruleset, and the panel list becomes [local, 7, 9] |

## Left out

- Drawable construction, colours, button widths, layout, the scroll container's minimum height, and the background fade and blur in `OnEntering`/`OnExiting`: presentation only.
- `CreateScoreInfo`: the response is taken as already converted scores. The converter is not part of this model.
- `api.Queue` and the HTTP transport: queueing is modelled as appending to `queuedRequests`. Failures never call the success callback, so a failed request changes nothing.
- `Schedule`: the success callback is modelled as running synchronously on the screen (`ApplyScores`).
- `ScorePanelList`: only the sequence of scores handed to it is modelled, not the order in which it displays them.
- `ReplayDownloadButton`, `RetryButton`, `HotkeyRetryOverlay` and `Player.Restart`: their effects are not modelled. `Restart` only counts its invocations, and the overlay's presence is a flag.
- `IsCurrentScreen()`: framework state, so it is a parameter of `PressRetryHotkey`.
- The framework calls `load` once and then `LoadComplete` once. `Load` and `LoadComplete` each require that they have not run yet, `LoadComplete` requires `load` has run, and `ApplyScores` requires the request has been queued.
- `ScoreInfo`'s other fields: only the online identifier, beatmap, ruleset and a stand-in payload (`totalScore`) are modelled. Beatmap and ruleset are identifiers rather than objects.
