# habit-tracker in Dafny

A model of the logic of the habit-tracker iOS prototypes, with proofs about it.
The repository holds several prototypes that do not fit together. Each
prototype gets its own module here, because two of them declare different
`Habit` types.

- `Streak` (`streak.dfy`, from `habit-tracker/Item.swift`): the SwiftData
  `Habit` class. It holds the completion dates, the `isCompletedToday` check
  and `updateStreak`. `updateStreak` sorts the dates and walks backwards from
  the latest one. It counts one-day steps, skips same-day repeats and stops
  at the first gap. It then keeps the count only if the latest completion is
  today or yesterday. The walk is proved equal to `StreakOf`, a definition
  without the loop: the run of distinct consecutive completed days that ends
  at the latest completion.
- `TodayView` (`today_view.dfy`, from `habit-tracker/ContentView.swift`):
  toggling today's completion of a SwiftData habit, and the colour of a
  category label (`colorMap[..., default: .blue]`).
- `HabitStore` (`habit_store.dfy`, from `habit-tracker/Models/HabitModel.swift`):
  the list prototype's `HabitStore`. It is an ordered list of habits, changed
  in place by id (toggle completed, toggle enabled, add, remove), plus a
  day-keyed map saying whether every habit was completed or disabled that day.
- `Session` (`session_data.dfy`, from `habit-tracker/Models/SessionData.swift`):
  the session store. It covers view history, the selected-habit set, the
  streak mirror in `userData`, the viewed habit and the logout reset.
- `Calendar` (`calendar_view.dfy`, from
  `habit-tracker/Views/Components/CalendarView.swift`): the 42-cell month
  grid, paging between months, the default-false completion lookup and a
  day number's text colour.
- `Wrappers` (`wrappers.dfy`): `Option`, for Swift's optionals.

Modelling conventions:

- Calendar days are integers, with consecutive days one apart. "Today" is a
  parameter. Foundation's `dateComponents([.day], from: a, to: b).day`
  becomes `b - a`. `isDateInToday(d)` becomes `d == today`, and "yesterday"
  becomes `today - 1`.
- Instants read from `Date()` (creation time, session start) are integer
  parameters named `now`.
- Swift `UUID`s are integers that the caller supplies.
- A calendar grid cell is an `Option<int>` holding the day of the month.

## Model

| member | source | states |
|---|---|---|
| `Streak.Latest` | habit-tracker/Item.swift:73 | the latest completion (`sortedDates.last!`) is one of the dates and no date is later |
| `Streak.Sorted` | habit-tracker/Item.swift:47 | `completedDates.sorted()` is ascending and a permutation of the dates |
| `Streak.Habit.constructor` | habit-tracker/Item.swift:22-31 | a new habit keeps the given title, description, category, target and colour; it is created now, with no completion dates and streak 0 |
| `Streak.Insert` | habit-tracker/Item.swift:47 | inserting a day into an ascending list gives an ascending list with that day added and nothing else changed, starting with the smaller of the day and the old first day |
| `Streak.CompletedToday` | habit-tracker/Item.swift:34-37 | `isCompletedToday` is false for a habit with no dates, and when it holds today is among the completion dates |
| `Streak.CompletedTodayReadsLastEntry` | habit-tracker/Item.swift:34-37 | `isCompletedToday` holds exactly when the last entry is today; an earlier entry for today followed by an entry for yesterday does not count |
| `Streak.Habit.UpdateStreak` | habit-tracker/Item.swift:40-83 | the backward walk over the sorted dates stores exactly `StreakOf(completedDates, today)`; only `streak` changes |
| `Streak.WalkFindsRun` | habit-tracker/Item.swift:55-70 | over an ascending list, the backward walk ends with a run of consecutive days that all occur in the list, and the day before the run does not occur: steps of one day extend the run, repeated days are skipped, the first larger gap or the first entry ends it |
| `Streak.StreakFromWalk` | habit-tracker/Item.swift:47-82 | the count the walk reaches from the last of the sorted dates is the streak when that day is today or yesterday; otherwise the streak is 0 |
| `Streak.SortedAt` | habit-tracker/Item.swift:47 | in an ascending list every day is at most each later one |
| `Streak.AbsentFromSorted` | habit-tracker/Item.swift:62-66 | a day strictly between two neighbouring entries of an ascending list, or before its first entry, does not occur in it |
| `Streak.LatestOfSorted` | habit-tracker/Item.swift:47-52 | the last of the sorted dates is the latest completion, and sorting keeps the number of entries |
| `Streak.RunCharacterized` | habit-tracker/Item.swift:56-70 | a run has length c exactly when the c days ending at the start day are all completed and the day before them is not: the first gap ends the count |
| `Streak.NoCompletionsNoStreak` | habit-tracker/Item.swift:41-44 | a habit with no completion dates has streak 0 |
| `Streak.StreakAtMostEntries` | habit-tracker/Item.swift:50-64 | the streak never exceeds the number of entries in `completedDates` |
| `Streak.StaleLatestMeansNoStreak` | habit-tracker/Item.swift:73-82 | if the latest completion is neither today nor yesterday, the streak is 0 |
| `Streak.LiveStreakIsRun` | habit-tracker/Item.swift:50-78 | if the latest completion is today or yesterday, the streak is at least 1; every day of the run ending at the latest completion is completed, and the day before the run is not |
| `Streak.StreakIgnoresOrder` | habit-tracker/Item.swift:47 | two lists with the same dates in any order give the same streak |
| `Streak.SameDayCountsOnce` | habit-tracker/Item.swift:62-69 | another completion on an already completed day leaves the streak unchanged |
| `TodayView.ToggledDates` | habit-tracker/ContentView.swift:166-179 | when done today, the toggle drops exactly the last entry and keeps the earlier ones in order; otherwise it appends one entry at the end, after which the habit is done today; the length changes by exactly one |
| `TodayView.ToggleHabitCompletion` | habit-tracker/ContentView.swift:166-179 | the completion list becomes `ToggledDates`; the streak is recomputed after an append and left unchanged after a removal |
| `TodayView.ToggleHabitCompletionRecomputed` | habit-tracker/ContentView.swift:166-179 | the corrected toggle: same list change, and afterwards the stored streak always equals `StreakOf` of the new list |
| `TodayView.ToggleTwiceRestores` | habit-tracker/ContentView.swift:166-179 | starting from not done today, one toggle marks today done and a second toggle restores the original list |
| `TodayView.UndoLeavesStreakStale` | habit-tracker/ContentView.swift:168-172 | undoing the only completion, which was made today, leaves a list whose streak is 0, while the stored streak was 1 |
| `TodayView.CategoryColor` | habit-tracker/ContentView.swift:227 | a colour name in the map gets its colour; any other name gets blue |
| `TodayView.CategoryColorTable` | habit-tracker/ContentView.swift:18-26 | each of the seven names selects its own colour, and only "blue" or an unknown name gives blue |
| `HabitStore.NewHabit` | habit-tracker/Models/HabitModel.swift:4-10 | a new habit keeps the given id, title and time, starts not completed and enabled, and so on its own is not yet done |
| `HabitStore.DefaultHabits` | habit-tracker/Models/HabitModel.swift:27-32 | the seeded list is Meditate/7am, Workout/12pm and Read/8pm, in that order, each not completed and enabled, so the day is not all done |
| `HabitStore.HabitStore.HabitCount` | habit-tracker/Models/HabitModel.swift:16 | the count is zero exactly when the store has no habits, and positive whenever it holds one |
| `HabitStore.FirstIndex` | habit-tracker/Models/HabitModel.swift:58 | the index found holds the id and no earlier habit does; there is no index exactly when no habit has the id |
| `HabitStore.FlipFirst` | habit-tracker/Models/HabitModel.swift:58-59 | the list keeps its length; only the first habit with the id has its flag flipped, and every other habit is unchanged |
| `HabitStore.AllDoneOrDisabled` | habit-tracker/Models/HabitModel.swift:65 | true exactly when every habit is completed or disabled |
| `HabitStore.RemoveAll` | habit-tracker/Models/HabitModel.swift:86 | exactly the habits without the id remain; an id no habit has leaves the list unchanged |
| `HabitStore.HabitStore.constructor` | habit-tracker/Models/HabitModel.swift:23-38 | a non-empty loaded list is kept; an empty one is replaced by Meditate/7am, Workout/12pm and Read/8pm, in that order |
| `HabitStore.HabitStore.ToggleCompleted` | habit-tracker/Models/HabitModel.swift:57-70 | flips `isCompleted` of the first habit with the id; then writes today's entry only, as "every habit is completed or disabled", even for an unknown id |
| `HabitStore.HabitStore.ToggleEnabled` | habit-tracker/Models/HabitModel.swift:72-77 | flips `isEnabled` of the first habit with the id only; the completion map is unchanged |
| `HabitStore.HabitStore.AddHabit` | habit-tracker/Models/HabitModel.swift:79-83 | appends exactly one habit at the end, with the given title and time, not completed and enabled; earlier habits are unchanged and `habitCount` grows by one |
| `HabitStore.HabitStore.DeleteHabit` | habit-tracker/Models/HabitModel.swift:85-88 | removes every habit with the id; the completion map is unchanged |
| `HabitStore.FlipFirstTwice` | habit-tracker/Models/HabitModel.swift:57-61 | toggling the same id twice restores the list |
| `HabitStore.FlipFirstUnknownId` | habit-tracker/Models/HabitModel.swift:72-77 | a toggle by an id no habit has changes nothing |
| `HabitStore.NoHabitsAllDone` | habit-tracker/Models/HabitModel.swift:65-66 | with no habits, today is recorded as done |
| `HabitStore.RemoveAllKeepsOrder` | habit-tracker/Models/HabitModel.swift:86 | removal keeps the survivors in their original order: removing from a concatenation removes from each part |
| `HabitStore.RemoveAllIdempotent` | habit-tracker/Models/HabitModel.swift:86 | a second removal with the same id changes nothing |
| `Session.Toggled` | habit-tracker/Models/SessionData.swift:53-59 | the given id's membership flips and every other id keeps its membership |
| `Session.Cleared` | habit-tracker/Models/SessionData.swift:67-76 | user data, history, both caches and the selection are emptied, the completed count is 0, no habit is viewed and the session starts anew; streak, completion rate, last active date, notification setting and theme are kept |
| `Session.SessionData.constructor` | habit-tracker/Models/SessionData.swift:9-31 | a new session has the field defaults, with start time and last active date now |
| `Session.SessionData.NavigateToView` | habit-tracker/Models/SessionData.swift:41-44 | the name is appended at the end of the history and earlier entries are kept; nothing else changes |
| `Session.SessionData.UpdateStreak` | habit-tracker/Models/SessionData.swift:47-50 | `currentStreak` and `userData["streak"]` both become the count; other keys and fields are unchanged |
| `Session.SessionData.ToggleHabitSelection` | habit-tracker/Models/SessionData.swift:53-59 | the selection becomes `Toggled`; nothing else changes |
| `Session.SessionData.SetCurrentHabit` | habit-tracker/Models/SessionData.swift:62-64 | the viewed habit becomes the argument, nil included; nothing else changes |
| `Session.SessionData.ClearSession` | habit-tracker/Models/SessionData.swift:67-76 | the new state is `Cleared` of the old one |
| `Session.ToggledTwice` | habit-tracker/Models/SessionData.swift:53-59 | toggling the same id twice restores the selection |
| `Session.ClearedTwice` | habit-tracker/Models/SessionData.swift:67-76 | a second reset gives the same state as the first except for the session start time |
| `Calendar.Days` | habit-tracker/Views/Components/CalendarView.swift:58-78 | exactly 42 cells: `firstWeekday - 1` blanks, then day d at index offset + d - 1 for each day of the month, then blanks; every day appears once, in ascending order |
| `Calendar.AddMonths` | habit-tracker/Views/Components/CalendarView.swift:92 | the result is a valid month exactly k months from the start |
| `Calendar.ChangeMonthRoundTrip` | habit-tracker/Views/Components/CalendarView.swift:91-95 | paging by k and then by -k returns to the same year and month |
| `Calendar.IsCompletedOn` | habit-tracker/Views/Components/CalendarView.swift:48 | a day missing from the completion data is shown as not completed |
| `Calendar.CalendarView.constructor` | habit-tracker/Views/Components/CalendarView.swift:3-7 | the view starts on the current month, a valid month, with the given completion data |
| `Calendar.CalendarView.ChangeMonth` | habit-tracker/Views/Components/CalendarView.swift:91-95 | the shown month becomes `AddMonths` of the old one and stays a valid month |
| `Calendar.DayTextColor` | habit-tracker/Views/Components/CalendarView.swift:115-127 | today is drawn in the primary colour whether or not it is completed; otherwise a completed day is white and any other day secondary |

## Findings

| source | as written | input that shows it | evidently intended | confidence | as-written member | corrected member |
|---|---|---|---|---|---|---|
| habit-tracker/ContentView.swift:168-172 | undoing today's completion removes the last date but does not call `updateStreak` | `completedDates == [today]` with `streak == 1`: after the undo the list is empty but `streak` is still 1 | the streak is recomputed after the removal too, here giving 0 | medium; not executed | `TodayView.ToggleHabitCompletion` (shown by `TodayView.UndoLeavesStreakStale`) | `TodayView.ToggleHabitCompletionRecomputed` |

## Left out

- Streak.Habit.UpdateStreak: dates are whole day numbers. The Swift code measures whole 24-hour periods between instants, which differs in both directions. Two completions less than 24 hours apart on consecutive calendar days count as a same-day repeat there, but as a one-day step here. Two completions between 24 and 48 hours apart across two calendar days (Monday 23:00 and Wednesday 01:00) count as a one-day step there, so Swift stores streak 2 on Wednesday, while here they are two days apart and `StreakOf([Mon, Wed], Wed)` is 1.
- Streak.Sorted: models the result of Swift's `sorted()`, the ascending permutation, not its algorithm.
- Streak.Habit.constructor: Swift's default arguments ("", "General", 7, "blue") are not modelled; every argument is explicit.
- Calendar.CalendarView.ChangeMonth: keeps only the year and month of `currentMonth`. The day of the month that Foundation clamps when adding months is dropped, because the grid reads only the year and month.
- Calendar.Days: the weekday of the 1st and the month's length are parameters, because they come from the platform calendar. `calendar.date(byAdding: .day, ...)` is assumed never to fail, so every day cell holds its day.
- Persistence: `saveHabits`/`loadHabits` (UserDefaults and JSON) and SwiftData `modelContext.insert/delete` are I/O. The loaded list is a constructor parameter, and saving has no modelled effect.
- `generateSampleCompletionData` draws random values. Its result is the `sampleData` parameter of the `HabitStore` constructor.
- `recordActivityEvent` only prints, so `NavigateToView` models just the history append.
- The SwiftUI views, gestures, animations and NotificationCenter wiring are presentation and event plumbing. This covers `HabitItemView.swift`, `WeeklyChart.swift`, `CustomToggle.swift`, `AddHabitView.swift`, `HabitDetailView.swift` and the root `ContentView.swift`. The `DayCell` circle fill and the month title formatting are left out for the same reason.
- Floating-point values are not computed. `todayCompletionRate` is kept only as a `real` field that the session carries. `weeklyProgress`, the chart heights and the detail view's percentage ring are left out.
- The placeholder constants `streakCount = 5` and `weeklyGrowth = "+30%"` have no behaviour.
- The `HabitStore` API called from `HabitDetailView.swift` (`currentStreak(for:)`, `totalCompletions`, `yearlyStats`, `monthlyBreakdown`, `completionDateStrings`, `toggleCompletion(for:on:)`) has no implementation in the modelled sources.
- `SessionData` is a process-wide singleton with a private initializer. Here it is an ordinary class with a constructor. Its `Any` values are the datatype `Session.Value`.
