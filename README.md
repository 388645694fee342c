# Basketball rotation manager — a verified model of the Redux slices

This project models the state and the computations of a basketball rotation
manager: the roster of players, the rotation being built (four periods and,
per player, the time segments they are on or off court), the staggered rotation
generator, the analytics computed from a rotation (fatigue curves, minutes per
period, rated five-player lineups) and the UI state. It is written in Dafny and
proves what each reducer and computation guarantees.

Times are whole seconds from tip-off. Minutes, fatigue values and ratings are exact
reals. A JavaScript `number` that may be `NaN` is the datatype `Number`. The module
layout follows the program:

- `types.dfy` (`Types`): the records of `src/types/index.ts`, `findIndex`/`find`, and the `message || default` error text.
- `timeline.dfy` (`Timeline`): the inclusive on-court tests and interval overlap.
- `fatigue.dfy` (`Fatigue`): the 48-step fatigue simulation.
- `minutes.dfy` (`Minutes`): total and per-period minutes.
- `lineups.dfy` (`Lineups`): breakpoints, five-player slices and ratings.
- `analytics.dfy` (`Analytics`): the analytics slice state and its handlers.
- `lists.dfy` (`Lists`): the list edits the reducers share: append-if-absent, replace-first, upsert and remove-all.
- `rotations.dfy` (`Rotations`): the default periods, the generator, the segment edits and the rotation slice state.
- `players.dfy` (`Players`): the sample roster and the roster slice state.
- `ui.dfy` (`Ui`): the UI slice state.

Reducers that update state in place are methods of a class per slice
(`RotationState`, `PlayersState`, `UiState`, `AnalyticsState`). Each is specified by
the whole new state, usually through a function on values (`SegmentAdded`, `Upsert`,
`RemoveAll`, …) whose properties are proved as lemmas. The analytics loops are
methods with loop invariants. They are proved against specification functions
(`FollowsFatigueRule`, `KeyMinutes`, `FiveSlices`).

Where the code's behaviour differs from what one might expect of a rotation tool, the model follows the code:

- Segments cover both end points (`start <= t && end >= t`). A half-open reading would avoid counting the instant two stints share twice; the model keeps the code's inclusive test.
- `addTimeSegment` and `updateTimeSegment` only re-sort. They never reject an overlapping segment.
- The generator's segments are stated with both end points included, as the code's consumers read them. Under that reading player 4's second mid-game stint `[2160, 2520]` (in the fourth quarter, since its stagger is 720 s) touches the closing stint `[2520, 2880]` at one instant.

## Model

| member | source | states |
|---|---|---|
| Types.ErrorText | src/store/slices/rotationSlice.ts:233-236 | a missing or empty error message falls back to the default text; a non-empty one is kept |
| Types.FirstIndex | src/store/slices/rotationSlice.ts:153-155 | `findIndex` returns the first position whose key matches, and -1 exactly when no key matches |
| Types.FindPlayer | src/store/slices/analyticsSlice.ts:20 | `find` returns a player exactly when one has the id, and it is the first such player |
| Timeline.Overlap | src/store/slices/analyticsSlice.ts:91-97 | the overlap is never negative, is at most either interval's length, and is positive exactly when the later start precedes the earlier end |
| Fatigue.Clamp | src/store/slices/analyticsSlice.ts:44-46 | the clamped value lies in [0, 100], equals the input inside that range and saturates outside it |
| Fatigue.ConsecutiveFor | src/store/slices/analyticsSlice.ts:41 | the limit is the player's consecutive minutes when found and non-zero, and 5 when the player is missing or their limit is 0; it is never 0, and it is positive when the roster has no negative limits |
| Fatigue.SimulateFatigue | src/store/slices/analyticsSlice.ts:21-55 | timestamps are exactly 0, 60, …, 2820; each of the 48 values is the previous one (0 first) plus the gain when some on-court segment covers the sample time, minus 0.05 otherwise, clamped; every value is in [0, 100] |
| Fatigue.CalculateFatigueModels | src/store/slices/analyticsSlice.ts:13-56 | no rotation gives no models; otherwise one model per assignment, in order, with the same player id, following the fatigue rule with that player's gain, all values in [0, 100] |
| Fatigue.StepDirection | src/store/slices/analyticsSlice.ts:29-46 | with a non-negative gain, fatigue never falls at an on-court sample and never rises at an off-court sample |
| Fatigue.GainIsPositive | src/store/slices/analyticsSlice.ts:41-42 | when no roster limit is negative, the on-court gain is positive |
| Fatigue.ContinuousPlay | src/store/slices/analyticsSlice.ts:37-48 | with a non-negative gain, a player on court at every sample up to k has fatigue min(100, (k+1)·gain) at sample k |
| Fatigue.AsWrittenEightMinutePlayer | src/store/slices/analyticsSlice.ts:42 | as written, a player with an 8-minute limit who plays from tip-off has fatigue 1.875, not 100, after 8 minutes |
| Fatigue.IntendedGainReachesFull | src/store/slices/analyticsSlice.ts:42 | with a gain of 100/c per 60-second step, a player on court from tip-off first reaches 100 at the sample taken c − 1 minutes in (the sample at 0 already adds one step), and is below 100 at the sample before |
| Fatigue.IntendedGainFullAt | src/store/slices/analyticsSlice.ts:42 | for any real limit c > 0, with a gain of 100/c per step, a player on court from tip-off is at 100 at sample k exactly when k + 1 ≥ c |
| Minutes.PeriodShare | src/store/slices/analyticsSlice.ts:91-95 | a segment's share of a period is never negative |
| Minutes.KeyMinutes | src/store/slices/analyticsSlice.ts:83-98 | the minutes stored under a period id are never negative |
| Minutes.ZeroByPeriod | src/store/slices/analyticsSlice.ts:76-79 | the map has exactly the period ids as keys, each mapped to 0 |
| Minutes.AddOverlaps | src/store/slices/analyticsSlice.ts:89-98 | adding one segment keeps the keys and adds to each key exactly that segment's overlap with the periods carrying that id |
| Minutes.DistributeMinutes | src/store/slices/analyticsSlice.ts:74-107 | the result has the player's id, the period ids as keys, each value the on-court overlap minutes for that period (never negative), and the total of on-court segment minutes |
| Minutes.CalculateMinutesDistribution | src/store/slices/analyticsSlice.ts:70-107 | no rotation gives no distributions; otherwise one distribution per assignment, in order, with every value non-negative |
| Minutes.OffCourtSegmentsAddNothing | src/store/slices/analyticsSlice.ts:83-87 | dropping the off-court segments changes neither the total nor any period's minutes |
| Minutes.KeySumIsTotal | src/store/slices/analyticsSlice.ts:85-98 | for contiguous periods with distinct ids that span every on-court segment, the per-period minutes add up to the total |
| Minutes.PeriodMinutesAddUpToTotal | src/store/slices/analyticsSlice.ts:85-98 | in a computed distribution over contiguous, distinct periods spanning every on-court segment, the values of `minutesByPeriod` sum to `totalMinutes` |
| Lineups.AllSegments | src/store/slices/analyticsSlice.ts:129-136 | the flattened list holds exactly the segments of some assignment, off-court ones included |
| Lineups.Endpoints | src/store/slices/analyticsSlice.ts:139-141 | a time is listed exactly when it is the start or end of some segment |
| Lineups.SortedDistinct | src/store/slices/analyticsSlice.ts:139-142 | the result is strictly increasing and holds exactly the input's values |
| Lineups.StrictlyIncreasingUnique | src/store/slices/analyticsSlice.ts:139-142 | two strictly increasing lists with the same elements are equal, so the deduplicated sorted breakpoints are unique |
| Lineups.BreakPoints | src/store/slices/analyticsSlice.ts:129-142 | the breakpoints are strictly increasing and are exactly the start and end times of every segment of every assignment |
| Lineups.PlayersOnCourt | src/store/slices/analyticsSlice.ts:154-158 | a player id is listed exactly when that assignment has an on-court segment with start ≤ t0 and end ≥ t1 |
| Lineups.PlayersOnCourtKeepsOrder | src/store/slices/analyticsSlice.ts:154-158 | the on-court filter distributes over concatenation, so ids stay in assignment order |
| Lineups.FiveSlicesAreTheCountingPairs | src/store/slices/analyticsSlice.ts:147-160 | every kept slice is a pair of consecutive breakpoints at least 60 s apart with exactly five players on court, and every such pair is kept |
| Lineups.FiveSlicesInTimeOrder | src/store/slices/analyticsSlice.ts:139-151 | over increasing breakpoints the kept slices are forward intervals, each ending no later than the next starts |
| Lineups.SkillVariety | src/store/slices/analyticsSlice.ts:161-168 | the variety is NaN exactly when the lineup has no skills, and otherwise lies in (0, 1] |
| Lineups.RateLineup | src/store/slices/analyticsSlice.ts:161-183 | the entry lists the given players and its plus-minus is (offensive − defensive)/10 − 5, NaN when a rating is |
| Lineups.RatingBounds | src/store/slices/analyticsSlice.ts:166-176 | with draws in [0, 1), a lineup with skills gets both ratings in [64, 120) and the plus-minus formula; one without skills gets NaN for all three |
| Lineups.EvaluateLineupEffectiveness | src/store/slices/analyticsSlice.ts:122-187 | no rotation gives no entries; otherwise entry k rates the k-th counting slice with random draws 2k and 2k+1, lists exactly five players and obeys the plus-minus rule |
| Lineups.RateFiveSlices | src/store/slices/analyticsSlice.ts:145-185 | the loop over consecutive breakpoints produces one rated entry per counting slice, in order |
| Lineups.SharedStintGivesOneLineup | src/store/slices/analyticsSlice.ts:129-185 | five players who share the single stint [600, 900] give breakpoints [600, 900] and exactly one lineup, that slice, with those five in order |
| Analytics.DefaultError | src/store/slices/analyticsSlice.ts:231-260 | each computation's default error message is non-empty |
| Analytics.AnalyticsState.constructor | src/store/slices/analyticsSlice.ts:201-207 | the initial state has no results, status idle and no error |
| Analytics.AnalyticsState.ClearAnalytics | src/store/slices/analyticsSlice.ts:213-219 | clearing returns every field to its initial value |
| Analytics.AnalyticsState.Pending | src/store/slices/analyticsSlice.ts:224-226 | a pending request sets the status to loading and changes nothing else (the same handler at lines 237-239 and 250-252) |
| Analytics.AnalyticsState.FatigueModelsFulfilled | src/store/slices/analyticsSlice.ts:227-230 | status succeeded, fatigue models replaced, the rest unchanged |
| Analytics.AnalyticsState.MinutesDistributionFulfilled | src/store/slices/analyticsSlice.ts:240-243 | status succeeded, minutes distributions replaced, the rest unchanged |
| Analytics.AnalyticsState.LineupEffectivenessFulfilled | src/store/slices/analyticsSlice.ts:253-256 | status succeeded, lineups replaced, the rest unchanged |
| Analytics.AnalyticsState.Rejected | src/store/slices/analyticsSlice.ts:231-234 | status failed, error is the message or the computation's default, results kept (the same handler at lines 244-247 and 257-260) |
| Analytics.AnalyticsState.RefreshFatigueModels | src/store/slices/analyticsSlice.ts:224-230 | pending, computation and fulfilled together store one model per assignment, each following the fatigue rule |
| Lists.AppendIfAbsent | src/store/slices/rotationSlice.ts:152-162 | the entry is appended exactly when its key is absent, and afterwards the key is present |
| Lists.AppendIfAbsentKeepsUnique | src/store/slices/rotationSlice.ts:152-162 | appending only absent keys keeps keys unique |
| Lists.AppendIfAbsentIdempotent | src/store/slices/rotationSlice.ts:152-162 | adding the same key twice is the same as adding it once |
| Lists.ReplaceFirst | src/store/slices/playersSlice.ts:115-120 | the length is unchanged; with no match nothing changes, otherwise exactly the first entry with the key is replaced |
| Lists.ReplaceFirstKeepsKeys | src/store/slices/playersSlice.ts:115-120 | replacing keeps every position's key, so unique keys stay unique |
| Lists.Upsert | src/store/slices/rotationSlice.ts:239-244 | the saved entry is in the result; the length grows by at most one; it replaces the first match or is appended when there is none |
| Lists.UpsertThenFind | src/store/slices/rotationSlice.ts:239-244 | after an upsert, looking the key up finds exactly the saved entry |
| Lists.UpsertIdempotent | src/store/slices/rotationSlice.ts:239-244 | saving the same entry twice is the same as saving it once |
| Lists.UpsertKeepsUnique | src/store/slices/rotationSlice.ts:239-244 | an upsert keeps keys unique |
| Lists.RemoveAll | src/store/slices/rotationSlice.ts:167-169 | the result holds exactly the entries whose key differs, and is no longer than the input |
| Lists.RemoveAllDistributes | src/store/slices/rotationSlice.ts:167-169 | the filter distributes over concatenation, so the survivors keep their order |
| Lists.RemoveAllAbsent | src/store/slices/playersSlice.ts:121-123 | removing an absent key changes nothing |
| Lists.RemoveAllIdempotent | src/store/slices/playersSlice.ts:121-123 | removing twice is removing once |
| Rotations.DefaultPeriods | src/store/slices/rotationSlice.ts:6-35 | four 720-second periods with start + duration = end, contiguous from 0 to 2880 |
| Rotations.DefaultQuartersAddUp | src/store/slices/rotationSlice.ts:6-35 | with the default periods, a player's quarter minutes sum to the total whenever their on-court segments lie within the game |
| Rotations.FirstQuarterStint | src/store/slices/analyticsSlice.ts:76-98 | a whole-first-quarter stint gives 12 total minutes: 12 in the first quarter and 0 in the others |
| Rotations.WellFormedIsDisjoint | src/store/slices/rotationSlice.ts:74-114 | in a well-formed schedule any earlier segment ends no later than any later one starts |
| Rotations.StaggeredSegments | src/store/slices/rotationSlice.ts:75-108 | the first five indices get [0,360], [720+s,1080+s], [1440+s,1800+s] and [2520,2880]; the others get only the middle two (s = (index mod 5)·180); all on court, sorted, non-overlapping, within [0, 2880] |
| Rotations.GenerateOptimizedRotation | src/store/slices/rotationSlice.ts:74-114 | one assignment per id, in order, each with its staggered, well-formed segments |
| Rotations.StaggeredInStarterWindow | src/store/slices/rotationSlice.ts:78-108 | a generated player is on court through the opening or closing stint exactly when their index is below 5 |
| Rotations.GeneratedStarters | src/store/slices/rotationSlice.ts:74-114 | for five or more ids, the players on court through [0, 360] and through [2520, 2880] are exactly the first five ids, in order |
| Rotations.InsertByStart | src/store/slices/rotationSlice.ts:184 | inserting into a list sorted by start keeps it sorted, with the same elements plus the new one |
| Rotations.SortByStart | src/store/slices/rotationSlice.ts:184 | the sort returns a permutation of its input, sorted by start time |
| Rotations.SortOfSorted | src/store/slices/rotationSlice.ts:184 | sorting a list already in start order leaves it unchanged |
| Rotations.SortIdempotent | src/store/slices/rotationSlice.ts:184 | sorting twice is sorting once |
| Rotations.SpliceStart | src/store/slices/rotationSlice.ts:215 | `splice`'s start: the index when in range, counted from the end when negative, saturating at 0 and at the length |
| Rotations.SpliceOne | src/store/slices/rotationSlice.ts:215 | exactly the element at the start position is removed, the others keep their order; nothing is removed when the start is the length |
| Rotations.SpliceOneRemovesOne | src/store/slices/rotationSlice.ts:215 | the removed element plus the remaining ones are the original multiset |
| Rotations.WithSegments | src/store/slices/rotationSlice.ts:177-182 | only the chosen assignment's segments change; every player id stays in place |
| Rotations.SegmentAdded | src/store/slices/rotationSlice.ts:175-185 | only the first matching assignment changes, and its segments become sorted by start and hold the old segments plus the new one; an unknown player changes nothing |
| Rotations.SegmentUpdated | src/store/slices/rotationSlice.ts:192-202 | for an index in range, the first matching assignment's segments become sorted, with the indexed segment swapped for the new one; otherwise nothing changes |
| Rotations.SegmentRemoved | src/store/slices/rotationSlice.ts:208-216 | only the first matching assignment changes, losing the segment at the splice position |
| Rotations.AddLatestSegmentAppends | src/store/slices/rotationSlice.ts:182-184 | a segment starting no earlier than the player's others is appended and the existing order kept |
| Rotations.AddTimeSegmentAcceptsOverlap | src/store/slices/rotationSlice.ts:181-185 | adding [0, 600] to a player holding [0, 360] keeps both overlapping segments: no overlap is rejected |
| Rotations.RotationState.constructor | src/store/slices/rotationSlice.ts:129-134 | no current rotation, nothing saved, status idle, no error |
| Rotations.RotationState.CreateNewRotation | src/store/slices/rotationSlice.ts:140-147 | the current rotation is "New Rotation" with the default periods and no assignments; the rest is unchanged |
| Rotations.RotationState.AddPlayerAssignment | src/store/slices/rotationSlice.ts:149-163 | no-op without a current rotation; otherwise an empty assignment is appended only when the player has none |
| Rotations.RotationState.RemovePlayerAssignment | src/store/slices/rotationSlice.ts:164-170 | no-op without a current rotation; otherwise every assignment of the player is dropped, the rest keep their order |
| Rotations.RotationState.AddTimeSegment | src/store/slices/rotationSlice.ts:171-186 | no-op without a current rotation; otherwise the assignments become `SegmentAdded` of the old ones |
| Rotations.RotationState.UpdateTimeSegment | src/store/slices/rotationSlice.ts:187-203 | no-op without a current rotation; otherwise the assignments become `SegmentUpdated` of the old ones |
| Rotations.RotationState.RemoveTimeSegment | src/store/slices/rotationSlice.ts:204-217 | no-op without a current rotation; otherwise the assignments become `SegmentRemoved` of the old ones |
| Rotations.RotationState.UpdateRotationName | src/store/slices/rotationSlice.ts:218-222 | no-op without a current rotation; otherwise only the name changes |
| Rotations.RotationState.FetchRotation | src/store/slices/rotationSlice.ts:38-55 | the fetched rotation has the requested id, or the fresh id when the request is empty, the default periods and no assignments |
| Rotations.RotationState.FetchRotationPending | src/store/slices/rotationSlice.ts:226-228 | status loading, nothing else changes |
| Rotations.RotationState.FetchRotationFulfilled | src/store/slices/rotationSlice.ts:229-232 | status succeeded and the payload becomes the current rotation |
| Rotations.RotationState.FetchRotationRejected | src/store/slices/rotationSlice.ts:233-236 | status failed, error is the message or "Failed to fetch rotation", current rotation kept |
| Rotations.RotationState.SaveRotationFulfilled | src/store/slices/rotationSlice.ts:237-250 | saved becomes the upsert of the payload by id; current is replaced only when it has the payload's id |
| Rotations.RotationState.GenerateOptimizedRotationFulfilled | src/store/slices/rotationSlice.ts:251-255 | no-op without a current rotation; otherwise only the assignments are replaced by the payload |
| Players.WithId | src/store/slices/playersSlice.ts:108-112 | the new player carries the fresh id and every other field of the draft |
| Players.SamplePlayers | src/store/slices/playersSlice.ts:6-67 | five players with the given ids and jersey numbers 1 to 5 |
| Players.SampleRosterIsConsistent | src/store/slices/playersSlice.ts:6-67 | every sample player has 0 < target ≤ max, a positive consecutive limit and at least one skill, and no two share a number |
| Players.PlayersState.constructor | src/store/slices/playersSlice.ts:98-102 | no players, status idle, no error |
| Players.PlayersState.AddPlayer | src/store/slices/playersSlice.ts:108-114 | exactly one player, under the fresh id, is appended; existing players are unchanged and ids stay unique |
| Players.PlayersState.UpdatePlayer | src/store/slices/playersSlice.ts:115-120 | the list becomes `ReplaceFirst` of the old one by id |
| Players.PlayersState.RemovePlayer | src/store/slices/playersSlice.ts:121-123 | the list becomes `RemoveAll` of the old one by id |
| Players.PlayersState.FetchPlayersPending | src/store/slices/playersSlice.ts:127-129 | status loading, nothing else changes |
| Players.PlayersState.FetchPlayersFulfilled | src/store/slices/playersSlice.ts:130-133 | status succeeded and the fetched list replaces the items |
| Players.PlayersState.FetchPlayersRejected | src/store/slices/playersSlice.ts:134-137 | status failed, error is the message or "Failed to fetch players", items kept |
| Players.PlayersState.SavePlayerFulfilled | src/store/slices/playersSlice.ts:138-145 | the list becomes the upsert of the saved player by id |
| Ui.ClampZoom | src/store/slices/uiSlice.ts:42-44 | the zoom lies in [0.5, 2], equals the request inside that range and saturates outside it |
| Ui.ClampZoomMonotone | src/store/slices/uiSlice.ts:43 | a larger requested zoom never gives a smaller stored zoom |
| Ui.UiState.constructor | src/store/slices/uiSlice.ts:14-23 | the initial state: nothing selected or dragged, roster view, zoom 1, both indicators shown, scroll 0 |
| Ui.UiState.SelectPlayer | src/store/slices/uiSlice.ts:29-32 | sets the selected player and clears the selected segment, nothing else |
| Ui.UiState.SelectSegment | src/store/slices/uiSlice.ts:33-35 | sets only the selected segment |
| Ui.UiState.SetActiveView | src/store/slices/uiSlice.ts:36-38 | sets only the active view |
| Ui.UiState.SetDraggingItem | src/store/slices/uiSlice.ts:39-41 | sets only the dragged item |
| Ui.UiState.SetZoomLevel | src/store/slices/uiSlice.ts:42-44 | stores the clamped zoom, nothing else changes, and the zoom stays in [0.5, 2] |
| Ui.UiState.ToggleFatigueIndicators | src/store/slices/uiSlice.ts:45-47 | flips only the fatigue indicator flag |
| Ui.UiState.ToggleRecommendations | src/store/slices/uiSlice.ts:48-50 | flips only the recommendations flag |
| Ui.UiState.SetTimelineScroll | src/store/slices/uiSlice.ts:51-53 | sets only the timeline scroll |
| Ui.UiState.ResetUiState | src/store/slices/uiSlice.ts:54-56 | the state is exactly the initial state again |
| Ui.ToggleTwiceIsIdentity | src/store/slices/uiSlice.ts:45-50 | toggling either flag twice leaves every field as it was |

## Left out

- The React pages, layout components and the store wiring: they render and route, and hold no state logic of their own.
- Thunk latency (`setTimeout`, promises): each thunk body is a synchronous method, and its pending, fulfilled and rejected handlers are separate methods.
- Ids from `uuidv4()`: the ids are parameters. `AddPlayer` requires its id to be absent from the roster; the period and sample-player ids are fixed once, as at module load.
- `Math.random()`: the lineup ratings read their draws from a function parameter, and entry k uses draws 2k and 2k+1. The distribution of the draws is not modelled.
- IEEE floating point: minutes, fatigue, ratings, zoom and scroll are exact reals, so rounding, `Infinity` and a `NaN` payload passed to `setZoomLevel` are not modelled. Only the lineup ratings model `NaN`, from 0/0.
- `getState()`: the analytics computations take the current rotation and the roster as parameters.
- Fractional or non-numeric segment indices: `updateTimeSegment` and `removeTimeSegment` take an integer index.
- Rotations.SortByStart: the engine's `Array.prototype.sort` is modelled as a stable insertion sort. The contract states sortedness and permutation but not stability.
- Rotations.RotationState: each reducer replaces the immutable `Rotation` value. The aliasing in the source, where every rotation shares the one `defaultPeriods` array, is not modelled.
- `PerformanceStats`, `Game` and the UI helper types of `src/types/index.ts`: no core operation reads them.

## Findings

| source | as written | input that shows it | evidently intended | confidence | as-written member | corrected member |
|---|---|---|---|---|---|---|
| src/store/slices/analyticsSlice.ts:42 | the on-court rate `100 / (maxConsecutive * 60)` is added once per 60-second step, so a player reaches 100 only after `maxConsecutive` hours on court | a player with an 8-minute limit on court from tip-off: fatigue is 1.875 at the 8-minute sample | the rate is per second, so it should be multiplied by the 60-second step: `100 / maxConsecutive` per step, reaching 100 by the sample taken `maxConsecutive` minutes in (first at the one a minute earlier, since the sample at 0 already adds a step) | medium, not executed | Fatigue.AsWrittenEightMinutePlayer | Fatigue.IntendedGainReachesFull |
