# Life trackers: a Dafny model of the tracker hooks

This project models the state logic of a personal life-tracking web app.
The app has six trackers: gym sessions, cigarettes smoked, water drunk, expenses, journal thoughts and nights of sleep.
Each tracker is a React hook that keeps an in-memory record store:
- a list of records, newest first; or
- a map from calendar day to a per-day bucket.

Each hook also offers aggregations over its store: totals, averages, streaks and a zero-filled seven-day chart.
The shared helpers (`src/utils/helpers.js`) are modelled too:
- the sleep-duration rule;
- the 'today' / 'week' / 'month' filter windows;
- grouping records by day.

How the model is laid out:

- **One module per source file.** `Gym`, `Smoking`, `Water`, `Expenses`, `Thoughts`, `Sleep` and `Helpers` each model one file.
  `Common` holds what they share: an `Option`, the day / millisecond clock, and the date-fns calendar functions.
  `Seqs` holds the generic record-store operations the hooks repeat: filter, sum, mean, delete-by-key, update-by-key, a tabulated series and group totals.
- **Each hook is a class.** Its fields are the hook's `useState` variables.
  - Every mutating operation is a `modifies this` method. Its `ensures` ties the new state to a specification function of the old state.
  - The properties of those specification functions are proved as lemmas.
- **Loops in the source are methods with `while` loops.** This covers the gym streak, the smoke-free streak, the three weekly charts, `getCategoryTotals` and `groupByDate`.
  Each is proved equal to a recursive specification: `Streak`, `CleanRun`, `Tabulate`, `CategoryTotal` and `Filter`.
- **Time, days and ids are plain numbers.**
  - A calendar day ('yyyy-MM-dd' key) is an `int` day number.
  - An ISO timestamp is an `int` count of milliseconds.
  - "Now" and "today" are parameters.
  - Fresh ids (`generateId()`, `Date.now()`) are parameters.
- **Money and minutes are `int`.** Averages and sleep hours are `real`.

No hook validates amounts, durations or content, so the model accepts any value.

## Model

| member | source | states |
|---|---|---|
| Common.DayOf | src/utils/helpers.js:25 | the day an instant falls on contains it: `d*day <= t < (d+1)*day` |
| Common.StartOfDay | src/utils/helpers.js:25 | midnight of the same day, at or before the instant, less than a day before it |
| Common.EndOfDay | src/utils/helpers.js:29 | the last millisecond of the same day: midnight plus a day minus 1 ms |
| Common.SubDays | src/utils/helpers.js:31 | the result lies on the day `n` days earlier, at the same time of day |
| Common.DifferenceInDays | src/features/smoking/useSmoking.js:80 | the result is the number of whole days between the two instants, counted forward when `later` is not before `earlier` and backward (as a non-positive number) otherwise, with the fraction of a day dropped |
| Seqs.Filter | src/utils/helpers.js:42-45 | the result holds exactly the elements satisfying the test, and is no longer than the input |
| Seqs.FilterConcat | src/features/expenses/useExpenses.js:61 | filtering a concatenation filters each part in turn, so the filter keeps input order |
| Seqs.FilterAll | src/features/gym/useGym.js:39 | a test every element passes keeps the whole list |
| Seqs.FilterNone | src/utils/helpers.js:74-75 | a test no element passes yields the empty list |
| Seqs.SumConcat | src/features/gym/useGym.js:55 | a sum over a concatenation is the sum of the parts |
| Seqs.SumOne | src/utils/helpers.js:77 | counting one per element gives the length |
| Seqs.SumNonNegative | src/features/expenses/useExpenses.js:66-67 | a sum of non-negative values is non-negative |
| Seqs.SumFilterBounds | src/features/expenses/useExpenses.js:66-67 | over non-negative values, the sum of the elements a test accepts lies between 0 and the whole sum |
| Seqs.SumSplit | src/features/expenses/useExpenses.js:65-67 | the sum over the elements a test accepts plus the sum over those it rejects is the whole sum |
| Seqs.SumRealBounds | src/features/sleep/useSleep.js:41 | a sum of `n` values in [lo, hi] lies in [n*lo, n*hi] |
| Seqs.SumRealOfInts | src/features/gym/useGym.js:61 | summing integers as reals gives the integer sum |
| Seqs.Mean | src/features/sleep/useSleep.js:39-43 | 0 for the empty list; otherwise mean × length = sum |
| Seqs.MeanBounds | src/features/sleep/useSleep.js:39-43 | the mean of values in [lo, hi] lies in [lo, hi] |
| Seqs.SumPerKeyEmpty | src/features/expenses/useExpenses.js:80 | per-key totals of the empty list add up to 0 |
| Seqs.SumPerKeyCons | src/features/expenses/useExpenses.js:80-86 | a new element adds its value to the total of its own key only, once, when keys are distinct |
| Seqs.SumPerKeyCovers | src/features/expenses/useExpenses.js:79-87 | over distinct keys covering every element's key, the per-key totals add up to the total |
| Seqs.RemoveKey | src/features/gym/useGym.js:39 | delete-by-id keeps exactly the elements with another key and never grows the list |
| Seqs.RemoveUnknownKey | src/features/gym/useGym.js:39 | deleting a key nobody carries leaves the list unchanged |
| Seqs.RemoveKeyCons | src/features/gym/useGym.js:39 | deletion drops or keeps the head and deletes from the tail, so survivors keep their order |
| Seqs.UpdateKey | src/features/expenses/useExpenses.js:47-51 | update-by-id keeps length and order, changes the matching elements by `g` and leaves every other element identical |
| Seqs.UpdateUnknownKey | src/features/expenses/useExpenses.js:47-51 | updating a key nobody carries leaves the list unchanged |
| Seqs.UpdateKeyTwice | src/features/expenses/useExpenses.js:47-51 | an update that keeps the key and is idempotent per element is idempotent on the list |
| Seqs.UpdateThenRemove | src/features/expenses/useExpenses.js:46-57 | deleting after an update that keeps the key equals deleting at once |
| Seqs.Tabulate | src/features/gym/useGym.js:99-114 | the chart built one pushed day at a time has exactly `n` entries |
| Seqs.TabulateAt | src/features/gym/useGym.js:99-114 | entry `k` of the chart is the value of day `from + k`, in ascending order |
| Helpers.GetDateRange | src/utils/helpers.js:23-37 | every window ends at the last millisecond of today and starts at a midnight: 7 days back for 'week', 30 for 'month', today for 'today' and any other value |
| Helpers.RangesNest | src/utils/helpers.js:23-37 | the month window contains the week window, which contains today's; all three end together |
| Helpers.FilterByDateRange | src/utils/helpers.js:40-46 | exactly the records whose instant lies in the window, bounds included; today's records up to now always qualify |
| Helpers.SleepGap | src/utils/helpers.js:52-57 | the +24h rule: the gap is `wake - sleep` when the wake time is not before the sleep time and `wake - sleep` plus one day when it is; it keeps its value modulo a day and is non-negative iff the wake time is at most a day before the sleep time |
| Helpers.JsRem | src/utils/helpers.js:60 | JavaScript `%`: the remainder takes the dividend's sign, is smaller than the divisor in size, and differs from the dividend by a multiple of the divisor |
| Helpers.CalculateSleepDuration | src/utils/helpers.js:49-63 | `totalHours = hours + minutes/60`; for a non-negative gap, `0 <= minutes <= 59`, `hours*60 + minutes` is the gap in whole minutes, hours are below 24 for a gap under a day |
| Helpers.OvernightSleep | src/utils/helpers.js:49-63 | 23:00 to 07:00 is 8 h 0 min, whether the wake time carries the next date or the same date |
| Helpers.GapBeyondADay | src/utils/helpers.js:55-60 | a wake time one day and one minute before bedtime leaves a negative gap, which decomposes as -1 h -1 min |
| Helpers.GroupSizesAreCounts | src/utils/helpers.js:71-80 | group sizes over the listed days equal the per-day counts of records |
| Helpers.GroupSizesTotal | src/utils/helpers.js:71-80 | the sizes of groups that match their filters add up to the input length |
| Helpers.UnseenDayEmpty | src/utils/helpers.js:74-75 | a day not yet seen has no records among those scanned, so its group rightly starts empty |
| Helpers.GroupLoopStep | src/utils/helpers.js:72-78 | one pass over a record (create the group if missing, then push) keeps the days equal to the days seen in first-appearance order, the group keys equal to those days, and each group equal to its day's records in order |
| Helpers.FirstSeen | src/utils/helpers.js:71-80 | the days of the records in scan order lists no day twice |
| Helpers.FirstSeenDays | src/utils/helpers.js:71-80 | the listed days are exactly the days some record falls on |
| Helpers.FirstSeenStep | src/utils/helpers.js:73-76 | one more record appends its day exactly when that day was not seen before |
| Helpers.FirstSeenOrder | src/utils/helpers.js:73-76 | the days are listed in order of first appearance: day `k` comes from some record `p`, and the records before `p` show exactly the days before `k` |
| Helpers.GroupByDate | src/utils/helpers.js:71-80 | the days are `FirstSeen` of the records (each day with a record, once, in first-appearance order) and are exactly the group keys; each group holds that day's records in input order; the sizes add up to the input length |
| Gym.SessionsOn | src/features/gym/useGym.js:43-46 | exactly the sessions dated on the given day |
| Gym.DurationOn | src/features/gym/useGym.js:54-56 | with no negative durations, the minutes of one day lie between 0 and the minutes of all sessions (its behaviour on adding a session and on an empty day is `DurationOnCons` and `DurationOnEmptyDay`) |
| Gym.DurationOnCons | src/features/gym/useGym.js:54-56 | a new session adds its minutes to its own day's total and to no other |
| Gym.DurationOnEmptyDay | src/features/gym/useGym.js:54-56 | a day without sessions totals 0 minutes |
| Gym.AverageDuration | src/features/gym/useGym.js:59-63 | 0 for no sessions; otherwise average × count = total minutes |
| Gym.AverageWithin | src/features/gym/useGym.js:59-63 | the average lies between the shortest and the longest session |
| Gym.LatestDate | src/features/gym/useGym.js:75 | the most recent session day is a session day and no session is later |
| Gym.InsertDescending | src/features/gym/useGym.js:70 | adding a day to a strictly descending list keeps it strictly descending and adds exactly that day |
| Gym.UniqueDatesDescending | src/features/gym/useGym.js:70 | the session days, each once, strictly descending |
| Gym.RunLength | src/features/gym/useGym.js:81-94 | the run of consecutive days ending at `top`: all in the set, the day before it not, no longer than the set |
| Gym.RunLengthIs | src/features/gym/useGym.js:81-94 | a run is fixed by where it stops |
| Gym.Streak | src/features/gym/useGym.js:66-95 | 0 with no sessions or a latest day more than one day before today; otherwise at least 1, at most the number of distinct days, and exactly the maximal run of consecutive session days ending at the latest one |
| Gym.StreakOfThree | src/features/gym/useGym.js:66-95 | sessions today and on the two days before give a streak of 3 |
| Gym.StreakEndingYesterday | src/features/gym/useGym.js:77-79 | sessions on the three days before today still give 3 (the grace day) |
| Gym.StaleStreak | src/features/gym/useGym.js:78-79 | one session two days ago gives 0 |
| Gym.RunOfDescendingDates | src/features/gym/useGym.js:82-92 | the walk over the sorted distinct days stops exactly where the run of consecutive days ends |
| Gym.EmptyDayBucket | src/features/gym/useGym.js:105-111 | a day without sessions shows 0 sessions and 0 minutes |
| Gym.CountSplit | src/features/gym/useGym.js:119 | the sessions in [lo, hi] are those in [lo, hi-1] plus those on hi |
| Gym.SeriesCounts | src/features/gym/useGym.js:118-120 | the chart's session counts add up to the number of sessions dated within its days |
| Gym.GymTracker.constructor | src/features/gym/useGym.js:6 | the hook starts with no sessions |
| Gym.GymTracker.AddGymSession | src/features/gym/useGym.js:25-35 | exactly one session, dated today with the given minutes and notes (default ''), goes in front of the unchanged old list |
| Gym.GymTracker.DeleteGymSession | src/features/gym/useGym.js:38-40 | the new list is delete-by-id of the old one |
| Gym.GymTracker.GetCurrentStreak | src/features/gym/useGym.js:66-95 | the loop with `break` computes `Streak` |
| Gym.GymTracker.GetWeeklyData | src/features/gym/useGym.js:98-115 | the loop builds the seven buckets of today-6 .. today, ascending |
| Gym.GymTracker.GetWeeklySessions | src/features/gym/useGym.js:118-120 | the result is the number of sessions dated in the trailing seven days |
| Smoking.WithSmoke | src/features/smoking/useSmoking.js:24-35 | today's count rises by exactly 1, today's list gains exactly the new instant at its end, every other day is unchanged |
| Smoking.AddKeepsConsistent | src/features/smoking/useSmoking.js:28-34 | `addSmoke` preserves `count == timestamps.length` on every day |
| Smoking.WithoutSmoke | src/features/smoking/useSmoking.js:88-103 | no-op without a bucket today; otherwise today's list loses every copy of the timestamp and keeps the rest, the count is recomputed and other days are unchanged |
| Smoking.RemoveRestoresConsistent | src/features/smoking/useSmoking.js:94-102 | `removeSmoke` re-establishes the bucket invariant today and keeps it elsewhere |
| Smoking.RemoveUndoesAdd | src/features/smoking/useSmoking.js:88-103 | removing a just-added timestamp that the day did not already hold restores the original state when today already has a bucket |
| Smoking.RemoveAfterAddOnFreshDay | src/features/smoking/useSmoking.js:88-103 | when today had no bucket, adding then removing a timestamp leaves only an empty bucket for today behind |
| Smoking.TodayCount | src/features/smoking/useSmoking.js:37-40 | 0 without a bucket; equals the number of today's entries when buckets are consistent |
| Smoking.TodayEntries | src/features/smoking/useSmoking.js:83-86 | `[]` without a bucket |
| Smoking.AddSmokeToday | src/features/smoking/useSmoking.js:24-40 | after `addSmoke`, today's count is one higher and today's entries end with the new instant |
| Smoking.CleanRun | src/features/smoking/useSmoking.js:56-72 | at most the budget; every counted day has no positive count; a run shorter than the budget stops at a day with a positive count |
| Smoking.CleanRunIs | src/features/smoking/useSmoking.js:56-72 | a clean run is fixed by where it stops |
| Smoking.WeekZeroFilled | src/features/smoking/useSmoking.js:42-54 | a day without a bucket shows count 0 in the chart |
| Smoking.DaysSinceQuit | src/features/smoking/useSmoking.js:78-81 | 0 without a quit date; otherwise the whole days elapsed since it, truncated toward zero |
| Smoking.SmokingTracker.constructor | src/features/smoking/useSmoking.js:7-8 | no buckets and no quit date |
| Smoking.SmokingTracker.AddSmoke | src/features/smoking/useSmoking.js:24-35 | the new map is `WithSmoke` of the old; the quit date is unchanged |
| Smoking.SmokingTracker.RemoveSmoke | src/features/smoking/useSmoking.js:88-103 | the new map is `WithoutSmoke` of the old; the quit date is unchanged |
| Smoking.SmokingTracker.SetQuitting | src/features/smoking/useSmoking.js:74-76 | only the quit date changes |
| Smoking.SmokingTracker.GetWeeklyData | src/features/smoking/useSmoking.js:42-54 | the loop builds the seven zero-filled counts of today-6 .. today, ascending |
| Smoking.SmokingTracker.GetStreak | src/features/smoking/useSmoking.js:56-72 | the loop with `break` computes `CleanRun` over 365 days: never above 365, and 0 when today has a positive count |
| Water.WithWater | src/features/water/useWater.js:35-51 | today's total rises by exactly the amount, today's entries gain exactly one entry with that amount at the end, every other day is unchanged |
| Water.AddKeepsConsistent | src/features/water/useWater.js:44-50 | `addWater` preserves `total == sum of entries' amounts` on every day |
| Water.TodayIntake | src/features/water/useWater.js:29-32 | 0 without a bucket; the sum of today's entries when buckets are consistent |
| Water.AddWaterIntake | src/features/water/useWater.js:29-51 | after `addWater(a)` today's intake is exactly `a` higher and every other day's is unchanged |
| Water.Progress | src/features/water/useWater.js:59-62 | never above 100; below the cap it is intake/goal × 100; for a positive goal it is 100 iff the intake reaches the goal, and non-negative for a non-negative intake |
| Water.WeekZeroFilled | src/features/water/useWater.js:65-77 | a day without a bucket shows intake 0 in the chart |
| Water.WaterTracker.constructor | src/features/water/useWater.js:5-9 | no buckets; the goal starts at 2000 ml |
| Water.WaterTracker.AddWater | src/features/water/useWater.js:35-51 | the new map is `WithWater` of the old; the goal is unchanged |
| Water.WaterTracker.UpdateDailyGoal | src/features/water/useWater.js:54-56 | only the goal changes; the per-day data is untouched |
| Water.WaterTracker.GetWeeklyData | src/features/water/useWater.js:65-77 | the loop builds the seven zero-filled intakes of today-6 .. today, ascending |
| Expenses.NewExpense | src/features/expenses/useExpenses.js:34-40 | the fresh id, the input's fields, the date defaulting to now when absent, created now |
| Expenses.Merge | src/features/expenses/useExpenses.js:49 | for each of the six fields (id, amount, category, description, date, createdAt), a value present in the updates overrides and an absent one keeps the old value |
| Expenses.MergeNothing | src/features/expenses/useExpenses.js:49 | empty updates change nothing |
| Expenses.MergeTwice | src/features/expenses/useExpenses.js:49 | merging the same updates twice is merging once |
| Expenses.Updated | src/features/expenses/useExpenses.js:46-52 | same length and order; matching records merged; every other record identical |
| Expenses.UpdateIdempotent | src/features/expenses/useExpenses.js:46-57 | updates that keep the id are idempotent, and deleting afterwards equals deleting at once |
| Expenses.Deleted | src/features/expenses/useExpenses.js:55-57 | exactly the records with another id remain |
| Expenses.DeleteUnknown | src/features/expenses/useExpenses.js:55-57 | deleting an unknown id is a no-op |
| Expenses.ByCategory | src/features/expenses/useExpenses.js:60-62 | exactly the expenses of that category |
| Expenses.TotalExpenses | src/features/expenses/useExpenses.js:65-68 | no expenses total 0, a filter that accepts every expense gives the unfiltered total, one that accepts none gives 0, and with no negative amounts any filtered total lies between 0 and the unfiltered total |
| Expenses.TotalExpensesCons | src/features/expenses/useExpenses.js:65-68 | an expense in front adds its amount exactly when there is no filter or the filter accepts it, so every total is the sum of the amounts of the accepted expenses |
| Expenses.TotalSplits | src/features/expenses/useExpenses.js:65-68 | the filtered total plus the total of the rejected expenses is the unfiltered total |
| Expenses.ByDateRange | src/features/expenses/useExpenses.js:71-76 | exactly the expenses with `start <= date <= end`, bounds included |
| Expenses.CategoryTotalsAddUp | src/features/expenses/useExpenses.js:79-87 | the category totals over all seven categories add up to `getTotalExpenses()` |
| Expenses.CategoryTotalAppend | src/features/expenses/useExpenses.js:80-86 | an expense adds its amount to its own category's total and to no other |
| Expenses.NoExpenseInCategory | src/features/expenses/useExpenses.js:81-82 | a category absent from the expenses so far has total 0, so starting its entry at 0 is right |
| Expenses.TotalsStep | src/features/expenses/useExpenses.js:80-86 | one step of the accumulator (missing or zero entry set to 0, then the amount added) keeps the keys equal to the categories seen and every entry equal to its category's total so far |
| Expenses.TotalsDone | src/features/expenses/useExpenses.js:79-87 | the keys the loop ends with are exactly the categories some expense has |
| Expenses.ExpenseTracker.constructor | src/features/expenses/useExpenses.js:16 | no expenses |
| Expenses.ExpenseTracker.AddExpense | src/features/expenses/useExpenses.js:34-43 | returns the new record and prepends it to the unchanged old list |
| Expenses.ExpenseTracker.UpdateExpense | src/features/expenses/useExpenses.js:46-52 | the new list is `Updated` of the old |
| Expenses.ExpenseTracker.DeleteExpense | src/features/expenses/useExpenses.js:55-57 | the new list is `Deleted` of the old |
| Expenses.ExpenseTracker.GetCategoryTotals | src/features/expenses/useExpenses.js:79-87 | an entry exactly for each category that has an expense, holding that category's sum of amounts |
| Thoughts.NewThought | src/features/thoughts/useThoughts.js:30-35 | the fresh id, the input's fields, created now |
| Thoughts.Merge | src/features/thoughts/useThoughts.js:43 | for each of the five fields (id, title, content, mood, createdAt), a value present in the updates overrides and an absent one keeps the old value |
| Thoughts.MergeTwice | src/features/thoughts/useThoughts.js:43 | merging the same updates twice is merging once |
| Thoughts.Updated | src/features/thoughts/useThoughts.js:40-46 | same length and order; matching thoughts merged; every other thought identical |
| Thoughts.Deleted | src/features/thoughts/useThoughts.js:48-50 | exactly the thoughts with another id remain |
| Thoughts.UpdateIdempotent | src/features/thoughts/useThoughts.js:40-50 | updates that keep the id are idempotent, and deleting afterwards equals deleting at once |
| Thoughts.DeleteUnknown | src/features/thoughts/useThoughts.js:48-50 | deleting an unknown id is a no-op |
| Thoughts.LowerChar | src/features/thoughts/useThoughts.js:54 | A-Z map to a-z, every other character is kept, and no upper-case letter remains |
| Thoughts.Lower | src/features/thoughts/useThoughts.js:54 | same length, each character lower-cased in place |
| Thoughts.LowerIdempotent | src/features/thoughts/useThoughts.js:54-56 | lower-casing twice is lower-casing once |
| Thoughts.Includes | src/features/thoughts/useThoughts.js:56-57 | true iff the query occurs at some position of the text |
| Thoughts.OccursAtLower | src/features/thoughts/useThoughts.js:54-57 | an occurrence survives lower-casing text and query |
| Thoughts.SearchThoughts | src/features/thoughts/useThoughts.js:52-59 | everything for an empty query; otherwise exactly the thoughts whose lower-cased content or title contains the lower-cased query |
| Thoughts.SearchIgnoresQueryCase | src/features/thoughts/useThoughts.js:52-59 | searching for the lower-cased query gives the same result |
| Thoughts.SearchFindsLiteral | src/features/thoughts/useThoughts.js:52-59 | a thought whose content or title holds the query as typed is found |
| Thoughts.FilterByMood | src/features/thoughts/useThoughts.js:61-64 | everything when no mood is given; otherwise exactly the thoughts with that mood |
| Thoughts.Journal.constructor | src/features/thoughts/useThoughts.js:15 | no thoughts |
| Thoughts.Journal.AddThought | src/features/thoughts/useThoughts.js:30-38 | returns the new thought and prepends it to the unchanged old list |
| Thoughts.Journal.UpdateThought | src/features/thoughts/useThoughts.js:40-46 | the new list is `Updated` of the old |
| Thoughts.Journal.DeleteThought | src/features/thoughts/useThoughts.js:48-50 | the new list is `Deleted` of the old |
| Sleep.NewEntry | src/features/sleep/useSleep.js:21-29 | the input's fields, the fresh id, created now, duration = `calculateSleepDuration(...).totalHours`, within [0, 24) for a gap under a day either way |
| Sleep.Deleted | src/features/sleep/useSleep.js:35-37 | exactly the entries with another id remain |
| Sleep.DeleteUnknown | src/features/sleep/useSleep.js:35-37 | deleting an unknown id is a no-op |
| Sleep.AverageSleep | src/features/sleep/useSleep.js:39-43 | 0 for no entries; otherwise average × count = total hours |
| Sleep.AverageWithin | src/features/sleep/useSleep.js:39-43 | the average lies between the shortest and the longest night |
| Sleep.Reverse | src/features/sleep/useSleep.js:46 | same length, element `i` is the input's element `n-1-i` |
| Sleep.ReverseReverse | src/features/sleep/useSleep.js:46 | reversing twice gives back the list |
| Sleep.WeeklyData | src/features/sleep/useSleep.js:45-47 | length min(7, n); entry `i` is the input's entry `len-1-i`: the newest seven nights, oldest first |
| Sleep.SleepLog.constructor | src/features/sleep/useSleep.js:6 | no entries |
| Sleep.SleepLog.AddSleepEntry | src/features/sleep/useSleep.js:21-33 | returns the new entry and prepends it to the unchanged old list |
| Sleep.SleepLog.DeleteSleepEntry | src/features/sleep/useSleep.js:35-37 | the new list is `Deleted` of the old |

## Left out

- Persistence is not modelled: the `useEffect` blocks that load from and save to `localStorage`, and `src/utils/storage.js`.
  `STORAGE_KEYS` has no `GYM` entry, although `useGym.js` lines 10 and 18 use one; this only matters for persistence.
- Rendering is not modelled: every `.jsx` component, forms, charts and routing.
- `formatCurrency`, `formatDate` and `formatTime` (helpers.js lines 4-20) are left out. They are formatting wrappers over `Intl` and date-fns.
- `generateId` and the `Date.now()` gym ids are not modelled as code. They depend on the clock and on randomness; ids are parameters instead.
- Dates use one fixed time zone, without daylight saving. A day is exactly 86 400 000 ms, and 'yyyy-MM-dd' keys are day numbers.
- Values outside the modelled types are left out:
  - invalid dates;
  - `NaN` from `parseFloat`;
  - falsy values other than the absent case, such as a quit date of `""` or a `0` count read through `|| 0`, which gives the same result anyway;
  - records whose category or mood lies outside the listed values.
- Floating point: amounts and minutes are `int`, and averages, sleep hours and progress are exact `real`. Rounding is not modelled.
- Water.Progress: requires a non-zero goal. Division by a zero goal yields `Infinity` or `NaN` in JavaScript, which the model does not represent.
- Stale closures are not modelled: `setState` batching, and the `currentData` that `addSmoke`/`addWater` read outside their updater. Each operation is one sequential state change.
- Updates are limited to the fields the records have:
  - updates or inputs that carry extra fields are not modelled;
  - an `id` spread over `addExpense`/`addThought` input is not modelled;
  - an update that sets a field to `undefined` is not modelled (a thought's title can be set but not cleared by an update).
- `toLowerCase` is modelled for ASCII letters only; Unicode case mapping is left out.
- `getTotalSessions` (useGym.js lines 49-51) is just the list length and has no member of its own.
- Helpers.GroupByDate: returns the groups as a map plus the list of days in first-appearance order. It does not model JavaScript's own key order for the returned object.
