# Wellness tracker dashboards: a Dafny model

This project models the in-memory computations of a personal wellness tracker's
React front end, and proves what they compute. It covers five pieces:

- **Journalling streak** (`src/StreakTracker.js`). Journal timestamps become calendar
  days in a set. The streak counts back from today while each day is in the set.
- **Weekly trend, totals and badges** (`src/DashboardOverview.jsx`).
  - Seven day buckets, from today − 6 to today.
  - The exercise minutes of each day.
  - A running mean of the day's mood scores (`moodMap`).
  - The all-time exercise and mood totals.
  - The six achievement badges and the capped goal rings.
- **Mood histogram** (`src/MoodAnalyticsChart.js`). The journal rows are filtered to one
  user and counted per mood value.
- **Health Quest activity log** (`src/healthQuestDash.js`).
  - Logging an activity, with the blank-description guard and the newest entry first.
  - The clamped mindfulness challenge and its "Log k more" card.
  - The category, mood and description edits of the draft, and the Cancel button.
  - The chart legend's visibility toggle.
- **Daily goals** (`wellnesstracker/src/healthQuestDash.js`). The log modal, the Log
  button that adds a parsed positive amount to one goal, and the progress bar capped
  at 100 %.

The JavaScript built-ins these handlers depend on are modelled in `JsText`:
`String.prototype.trim`, `toLowerCase` and `parseFloat`.

The modules follow the source files:

- `Wrappers`: `Option`, standing for `null`, `undefined` and `NaN`.
- `Sums`: left-to-right sums, the shape of the exercise-minute and entry-count accumulations (the mood mean and the mood tally are folds of their own).
- `Records`: the fetched rows.
- `Streak`, `MoodChart`, `QuestDash`, `GoalLog`: one per component.
- `Trend` and `Overview`: the weekly trend, and the totals, badges and rings, of `DashboardOverview`.
- `JsText`: the string built-ins.

Everything is an immutable datatype with pure functions. Each event handler is a
function from one state snapshot to the next. `Streak.CountStreak` and
`Trend.FetchTrend` are methods whose loops follow the source's loops, and they are
proved equal to functional definitions.

Day keys are integers, with the day before `d` being `d - 1`. Query results are
parameters (`Option` for a result that may be `null`). Means, progress and ring
values are exact `real`s.

A journal entry whose symbol is not in `moodMap` scores 0 but still counts in
the day's denominator (`src/DashboardOverview.jsx:79-81`), so unknown symbols pull
the day's mean toward 0. `Trend.UnknownSymbolCounted` states it.

## Model

| member | source | states |
|---|---|---|
| Streak.LoggedDays | src/StreakTracker.js:19 | The day set holds the day of every entry and nothing else. |
| Streak.StreakUnique | src/StreakTracker.js:20-26 | At most one length satisfies the streak characterisation for a set of days and today. |
| Streak.RunFrom | src/StreakTracker.js:20-26 | Counting back one day at a time ends. It yields n such that the days today−n+1..today are all logged and today−n is not. |
| Streak.CurrentStreak | src/StreakTracker.js:20-26 | The shown streak satisfies that characterisation. It is positive exactly when today itself is logged. |
| Streak.CountStreak | src/StreakTracker.js:20-28 | The while loop terminates with the characterised count, equal to the functional streak. |
| Streak.FetchStreak | src/StreakTracker.js:18-29 | On a query error or zero rows the shown value is kept. Otherwise it becomes the characterised streak of the rows' days. |
| Streak.NoEntriesNoStreak | src/StreakTracker.js:6-18 | Starting from the initial 0, an error or an empty result leaves the streak at 0. |
| Streak.StreakAtMostDays | src/StreakTracker.js:19-26 | The streak never exceeds the number of distinct logged days. |
| Streak.StreakMonotone | src/StreakTracker.js:19-26 | A superset of logged days never gives a shorter streak. |
| Streak.AddEntryKeepsStreak | src/StreakTracker.js:19-26 | Appending one more journal entry never decreases the streak. |
| Streak.LoggedDaysSameElements | src/StreakTracker.js:19 | Row lists with the same entries, in any order and with any repetition, give the same day set. |
| Streak.SameDayCountsOnce | src/StreakTracker.js:19 | A further entry on an already logged day leaves the day set unchanged. |
| Streak.TwoDayExample | src/StreakTracker.js:20-26 | Entries today and yesterday only give a streak of 2. |
| Streak.GapExample | src/StreakTracker.js:20-26 | Entries today and two days ago give a streak of 1. |
| Sums.SumAppend | src/DashboardOverview.jsx:32 | An accumulated sum over a concatenation is the sum of the two parts. |
| Sums.SumPermutation | src/DashboardOverview.jsx:66-71 | Any reordering of the elements leaves an accumulated sum unchanged. |
| Trend.MoodScore | src/DashboardOverview.jsx:50 | A symbol's score is at most 5. It is 0 exactly when the symbol is not one of the five mapped ones. |
| Trend.IncrementalMean | src/DashboardOverview.jsx:78-80 | One update `(mean*count + score)/(count+1)` turns the mean of count values into the mean of count+1 values. |
| Trend.RunningMeanIsAverage | src/DashboardOverview.jsx:74-84 | Folding scores through the update gives their arithmetic mean, or absent for none. |
| Trend.RunningMeanOrderIndependent | src/DashboardOverview.jsx:74-84 | Two orderings of the same scores fold to the same mean. |
| Trend.ExerciseStep | src/DashboardOverview.jsx:66-71 | One more log adds its minutes (0 when missing) to the bucket of its own date only. |
| Trend.MoodStep | src/DashboardOverview.jsx:75-82 | One more entry updates only the bucket of its day: the mean by the incremental formula and the count by one. |
| Trend.FetchTrend | src/DashboardOverview.jsx:44-87 | The three loops yield 7 buckets keyed today−6..today in ascending order. Each holds the day's exercise minutes, mood mean and entry count. |
| Trend.TrendOrderIndependent | src/DashboardOverview.jsx:65-84 | Reordering the exercise rows or the journal rows leaves the whole trend unchanged. |
| Trend.LogOutsideWindowIgnored | src/DashboardOverview.jsx:66-71 | A log dated outside the seven days changes no bucket. |
| Trend.EntryOutsideWindowIgnored | src/DashboardOverview.jsx:75-83 | A journal entry outside the seven days changes no bucket. |
| Trend.UnknownSymbolCounted | src/DashboardOverview.jsx:78-81 | An entry with an unmapped symbol adds 0 to the day's score total but 1 to its count. |
| Trend.CountZeroIffNoEntries | src/DashboardOverview.jsx:75-82 | A day's count is 0 exactly when no entry falls on that day. |
| Trend.MoodAbsentIffNoEntries | src/DashboardOverview.jsx:57-81 | A bucket's mood stays null exactly when its count is 0, and exactly when no entry is dated that day. |
| Trend.MoodTotalBounded | src/DashboardOverview.jsx:78-80 | The day's score total lies between 0 and 5 times the day's count. |
| Trend.MoodAverageInRange | src/DashboardOverview.jsx:78-80 | Every mood value that is not null lies in [0, 5]. |
| Trend.DayScoresTotals | src/DashboardOverview.jsx:75-82 | The day's score list has one score per entry of the day, and its sum is the day's total. |
| Trend.BucketMoodIsRunningMean | src/DashboardOverview.jsx:74-84 | Each bucket's mood equals both the running mean and the arithmetic mean of that day's scores. |
| Trend.TwoMoodsExample | src/DashboardOverview.jsx:74-84 | Two entries today scoring 5 and 3 give today's bucket mood 4 over 2 samples and 0 minutes. |
| Trend.YesterdayExerciseExample | src/DashboardOverview.jsx:65-72 | Two logs yesterday of 30 and 20 minutes give yesterday's bucket 50. |
| Overview.ExerciseTotal | src/DashboardOverview.jsx:27-34 | The total is the sum of the durations, a missing one counting 0. It is 0 for null data and for no rows. |
| Overview.MoodCount | src/DashboardOverview.jsx:36-42 | The count is the number of rows, or 0 for null data. |
| Overview.MoodCountIsChartTotal | src/DashboardOverview.jsx:36-42 | Over the signed-in user's rows, the check-in count equals the mood chart's bars added together. |
| Overview.WeekCountIsWindowSum | src/DashboardOverview.jsx:74-84 | Summed over the weekly trend, the buckets' sample counts equal the number of entries dated inside the seven-day window, so each such entry lands in exactly one bucket. |
| Overview.WeekSamplesAtMostMoodCount | src/DashboardOverview.jsx:36-84 | The trend's sample counts, summed over the week, never exceed the check-in count of the same rows, and equal it when every row is in the window. |
| Overview.Achievements | src/DashboardOverview.jsx:89-98 | A badge is listed exactly when its figure reaches its fixed threshold. Badges appear in the fixed table order, each at most once. |
| Overview.AchievementLabels | src/DashboardOverview.jsx:89-97 | The labels pushed are those of the earned badges, in the same order. A badge's label is listed exactly when the badge is earned, and no label is listed twice. |
| Overview.LabelsDistinct | src/DashboardOverview.jsx:91-96 | No two badges share a label. |
| Overview.TierImplications | src/DashboardOverview.jsx:91-96 | The 300-minute badge implies the 150-minute one. The 50-log badge implies the 25-log one, which implies the 10-log one. |
| Overview.AchievementsMonotone | src/DashboardOverview.jsx:91-96 | Larger totals never lose a badge. |
| Overview.InitialSleepEarnsBadge | src/DashboardOverview.jsx:93 | With the initial sleep score of 72 the Good Sleep badge is always earned. |
| Overview.RingValue | src/DashboardOverview.jsx:116 | The ring shows the value itself, or 100 when the value exceeds 100. It never shows more than either. |
| Overview.ExerciseRingFullIffBadge | src/DashboardOverview.jsx:106-116 | The exercise ring is full exactly when the 150-minute badge is earned. |
| Overview.MoodRingFullIffBadge | src/DashboardOverview.jsx:106-116 | The mood ring is full exactly when the 10-log badge is earned. |
| Overview.WeekMinutesIsWindowSum | src/DashboardOverview.jsx:65-72 | Summed over the weekly trend, the buckets' minutes equal the minutes of the logs dated inside the seven-day window. |
| Overview.WeekExerciseAtMostTotal | src/DashboardOverview.jsx:32-71 | With no negative durations, the trend's minutes summed over the week never exceed the all-time exercise total. |
| MoodChart.ForUser | src/MoodAnalyticsChart.js:20 | The filtered rows are exactly the rows of the requested user. |
| MoodChart.Tally | src/MoodAnalyticsChart.js:21-24 | One step adds 1 to the count of the entry's mood, creating its bar if absent. Other counts are unchanged, bars stay distinct and the total grows by one. |
| MoodChart.CountMoods | src/MoodAnalyticsChart.js:21-24 | Each mood's count is its number of occurrences among the rows. Bars are exactly the occurring moods, distinct, each at least 1, summing to the row count. |
| MoodChart.MoodOfUser | src/MoodAnalyticsChart.js:20 | A mood occurs among the filtered rows exactly when some row of that user carries it. |
| MoodChart.MoodCounts | src/MoodAnalyticsChart.js:20-29 | Each mood of the user's rows has exactly one bar, with height equal to the number of those rows with that mood (at least 1). The heights sum to the user's row count. |
| MoodChart.BarsAreUserMoods | src/MoodAnalyticsChart.js:20-29 | A mood has a bar exactly when a row of the user carries it, and its count is that number of rows. |
| MoodChart.FetchMoodCounts | src/MoodAnalyticsChart.js:19-32 | A failed query keeps the chart shown. Otherwise the bars are distinct and each at least 1. A mood has a bar exactly when it occurs among the user's rows, with height equal to its occurrences, and the bars add up to the user's row count. |
| MoodChart.OtherUsersIgnored | src/MoodAnalyticsChart.js:20 | Adding a row of another user leaves the chart unchanged. |
| QuestDash.Bump | src/healthQuestDash.js:85-88 | A Mindfulness log raises the sessions by one below the target, and sets them to the target otherwise. |
| QuestDash.Stamp | src/healthQuestDash.js:77-81 | The entry is the draft. A missing time becomes the clock's, a zero points value becomes 5..14, and non-empty times and non-zero points are kept. |
| QuestDash.LogActivity | src/healthQuestDash.js:74-92 | A blank description leaves the state unchanged. Otherwise the stamped draft heads the list before the old entries, the challenge is bumped only for Mindfulness, the draft resets, the modal closes and the legend is kept. |
| QuestDash.LogKeepsChallengeValid | src/healthQuestDash.js:84-88 | The challenge starts with sessions ≤ target. Logging keeps that and never lowers the sessions. |
| QuestDash.LogKeepsHistory | src/healthQuestDash.js:83 | After a log, entry i of the old list is entry i+1 of the new one. |
| QuestDash.ChallengeStatus | src/healthQuestDash.js:417-421 | The card is complete exactly when sessions reach the target. Otherwise it asks for a positive k that completes the target. |
| QuestDash.RemainingSessionsComplete | src/healthQuestDash.js:417-421 | Logging the k announced sessions completes the challenge, and further ones keep it exactly at the target. |
| QuestDash.OpenModal | src/healthQuestDash.js:599 | The button opens the modal, which makes it visible. Every other part of the state (draft, list, challenge, legend) is unchanged. |
| QuestDash.ChooseCategory | src/healthQuestDash.js:109-149 | Category box i sets the draft's type to its label and its entry type to its key, which shows the modal. Nothing else in the draft or the state changes. |
| QuestDash.EditDescription | src/healthQuestDash.js:679 | Typing sets the draft's description only. |
| QuestDash.CancelLog | src/healthQuestDash.js:905-907 | Cancel hides the modal and resets the draft to the default. The list, the challenge and the legend are unchanged. |
| QuestDash.LogHidesModal | src/healthQuestDash.js:90-91 | After a successful log the modal is hidden, whatever category had been chosen. |
| QuestDash.MoodLineInjective | src/healthQuestDash.js:746-751 | The description rebuilt by the mood handlers determines both the level and the free text it came from. |
| QuestDash.SelectAndEditCommute | src/healthQuestDash.js:745-776 | Picking a mood button and typing the mood text give the same draft in either order. |
| QuestDash.SelectMood | src/healthQuestDash.js:745-752 | Button index i selects its emoji and level i+1 in 1..5 and rebuilds the description. Nothing else changes. |
| QuestDash.EditMoodText | src/healthQuestDash.js:767-776 | Typing keeps the text and rebuilds the description from the chosen level, or from level 3 when none is chosen. |
| QuestDash.DraftChangesKeepMoodLevel | src/healthQuestDash.js:750 | Every draft change keeps the selected mood level absent or within 1..5. |
| QuestDash.ToggleLine | src/healthQuestDash.js:512-516 | The clicked key becomes the negation of its visibility, an absent key reading as hidden. Every other key is unchanged. |
| QuestDash.ToggleTwice | src/healthQuestDash.js:512-516 | Clicking a recorded key twice restores the visibility map. |
| QuestDash.ToggleTwiceAbsent | src/healthQuestDash.js:512-516 | Clicking an unrecorded key twice records it as hidden. |
| GoalLog.OpenLogModal | wellnesstracker/src/healthQuestDash.js:30 | Opening sets the category and an empty value, and leaves the goals alone. |
| GoalLog.CloseLogModal | wellnesstracker/src/healthQuestDash.js:31 | Closing sets the modal to closed, with no category and an empty value, as `{open: false, type: null, value: ''}` does. The goals are unchanged. |
| GoalLog.EditValue | wellnesstracker/src/healthQuestDash.js:170 | Typing sets the value only. |
| GoalLog.LoggedAmount | wellnesstracker/src/healthQuestDash.js:176 | An empty input reads as the number 0. |
| GoalLog.SubmitLog | wellnesstracker/src/healthQuestDash.js:175-188 | A positive parsed amount for a category with a goal is added to that goal's progress. Otherwise the goals are unchanged. Keys and targets are kept, other goals are untouched, no progress decreases, and the modal closes. |
| GoalLog.NonPositiveLogChangesNothing | wellnesstracker/src/healthQuestDash.js:176-178 | An empty, unparseable or non-positive input changes no goal. |
| GoalLog.LogWholeAmount | wellnesstracker/src/healthQuestDash.js:176-185 | Logging the numeral of a positive whole number n adds exactly n to the goal. |
| GoalLog.TrackerKindHasGoal | wellnesstracker/src/healthQuestDash.js:69-77 | Each of the four Log buttons' categories lower-cases to a key of the initial goals. |
| GoalLog.EventsKeepGoalsValid | wellnesstracker/src/healthQuestDash.js:23-28 | The goals start with positive targets and no negative progress. Every event keeps that. |
| GoalLog.BarWidth | wellnesstracker/src/healthQuestDash.js:46 | The width never exceeds 100. It is 100 exactly when progress reaches the target, and is the exact percentage below that. |
| GoalLog.BarWidthMonotone | wellnesstracker/src/healthQuestDash.js:46 | More progress never shrinks the bar. |
| JsText.TrimEmptyIffBlank | src/healthQuestDash.js:75 | A string trims to empty exactly when all its characters are ECMAScript whitespace or line terminators. |
| JsText.ToLower | wellnesstracker/src/healthQuestDash.js:177 | Lower-casing keeps the length and maps each character by the ASCII rule. |
| JsText.ToLowerCapitalised | wellnesstracker/src/healthQuestDash.js:177 | A capitalised word lower-cases to its first letter lowered and the rest unchanged. |
| JsText.ToLowerIdempotent | wellnesstracker/src/healthQuestDash.js:177 | Lower-casing twice equals lower-casing once. |
| JsText.ParseFloat | wellnesstracker/src/healthQuestDash.js:176 | An input with no decimal digit parses to NaN. |
| JsText.ParseNatString | wellnesstracker/src/healthQuestDash.js:176 | Parsing the decimal numeral of a natural number gives that number back. |
| JsText.ParseNegativeNatString | wellnesstracker/src/healthQuestDash.js:176 | Parsing a minus sign followed by a numeral gives the negated number. |
| JsText.ParseEmptyIsNaN | wellnesstracker/src/healthQuestDash.js:176 | The empty string parses to NaN. |

## Left out

- Supabase queries, `useEffect`, `async`/`await` and `Promise.all` are not modelled: they are I/O. Each computation takes the fetched rows as a parameter, with `Option` for `data` being `null`.
- The server-side `user_id` filters of the queries are not modelled; only the client-side filter of `MoodAnalyticsChart` is.
- Date handling is not modelled, because those are library details. This covers dayjs local formatting and `toISOString().slice(0, 10)` (UTC) for the bucket keys. It also covers the `created_at.slice(0, 10)` prefix and the weekday labels. Day keys are caller-supplied integers, and the bucket keeps its day key instead of the weekday name.
- The stale-state reads of `fetchAchievements` are not modelled: it reads totals that the asynchronous fetches have not set yet. `Overview.Achievements` takes the totals as a parameter.
- Records.ExerciseLog: durations are whole minutes (`Option<int>`). The form stores `Number(duration)` from a `type="number"` input (`src/ExerciseTracker.jsx:38, 81-87`), so a row can hold a fractional duration such as 12.5. That value then feeds the exercise total's `reduce` (`src/DashboardOverview.jsx:32`) and the trend's `+=` (`src/DashboardOverview.jsx:69`). The model keeps durations integral so that those aggregations and `Records.TotalMinutes`, `Overview.ExerciseTotal`, `Trend.ExerciseOn` and the `Sums` lemmas work over `int`. The totals, trend buckets, bounds and exercise badges are therefore not stated for rows with fractional minutes.
- IEEE floating point is not modelled: means, ring values, progress and bar widths are exact reals. `Math.round` of the ring text and the wellness score are not modelled.
- `Math.random` is not modelled: it becomes the `roll` parameter, in 0..9. `toLocaleTimeString` becomes the `clock` parameter.
- `Object.entries` ordering is not modelled. JavaScript lists integer-like keys first; the model keeps the insertion order. Non-string `mood` values coerced to keys are not modelled either.
- `Number(count) || 0` in `MoodAnalyticsChart` is modelled as the count itself. For moods that do not name an `Object.prototype` member, every count is at least 1 (`MoodChart.CountMoods`).
- Trend.MoodScore: does not model mood strings that name an `Object.prototype` member (`toString`, `constructor`, ...). For those, `moodMap[mood]` is a function rather than `undefined`, so the source's day mean becomes `NaN` at that entry. The next entry of the same day reads `(NaN || 0)` as 0, so the mean restarts from its score and drops the earlier scores while still dividing by their count. For the day's moods 😊, `toString`, 😊 the source shows 5/3 and the model 10/3. The day shows `NaN` only when such an entry is its last. The model scores these symbols 0.
- MoodChart.CountMoods: does not model moods named after `Object.prototype` members. In the source the accumulator `{}` already holds a function under such a key, so its count becomes a string and is shown as 0, and a `__proto__` mood gets no bar at all.
- JsText.ParseFloat: models signed decimals with an optional point, and reads an exponent numeral wrongly. `ParseFloat("1e3")` is 1 where JavaScript gives 1000, and `Infinity` reads as `NaN`. A `type="number"` input can deliver such a value (`wellnesstracker/src/healthQuestDash.js:165-171`), and `GoalLog.SubmitLog` then adds 1 where the source adds 1000. Its contract states only the no-digit case and the numeral round trips.
- JsText.ToLower: maps ASCII letters only. Every category label in the source is ASCII.
- GoalLog.BarWidth: requires a positive target. Every target is one of the four positive constants, and no event changes a target (`GoalLog.EventsKeepGoalsValid`). So the division by zero the source would turn into `Infinity` or `NaN` cannot arise.
- QuestDash.EditMoodText: requires the selected level to be absent or within 1..5. `QuestDash.DraftChangesKeepMoodLevel` shows every event keeps that, so the source's out-of-range array read cannot happen.
- The fields of the other category forms are not modelled: duration, meal, calories, sleep quality and hours (`src/healthQuestDash.js:691, 710, 723-727, 799-806, 821-825`). These handlers store their field and also rebuild the draft's `description` from it. Nor is the type select of the generic form (`src/healthQuestDash.js:859`), which only stores `type`. That description is what `QuestDash.LogActivity` later checks for blankness and stamps. `QuestDash.LogActivity` is stated for every draft, whatever description or type it holds, so leaving these handlers out does not weaken its contract.
- Tab navigation, resource and appointment toggles, and all JSX rendering and hard-coded chart data are not modelled.
- The mood form offers U+1F614 for its lowest level, while the dashboard's `moodMap` scores U+1F622. The two components never exchange entries, so nothing in the model connects them. The mismatch is recorded here only.
- The backend is not part of this model: the Express/Mongo server, its routes and schema, and bcrypt/JWT authentication. Also outside the model are `src/App.js` session handling, the login and register forms, `src/UserProfile.jsx`, the one-line guards of the sleep, exercise and meal trackers, and `WellnessTracker.java`.
