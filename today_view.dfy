/**
 * The SwiftData prototype's list screen (habit-tracker/ContentView.swift):
 * marking a habit done or undone for today, and the colour of a habit's
 * category label.
 */
module TodayView {
  import opened Streak

  /*----------------------------------------------------------------------
   * Toggling today's completion
   *----------------------------------------------------------------------*/

  /**
   * The completion list after `toggleHabitCompletion`: the last entry is
   * dropped when it is today, otherwise today is appended.
   */
  function ToggledDates(dates: seq<int>, today: int): (r: seq<int>)
    ensures |r| == if CompletedToday(dates, today) then |dates| - 1 else |dates| + 1
    ensures CompletedToday(dates, today) ==> r == dates[..|dates| - 1]
    ensures !CompletedToday(dates, today) ==> CompletedToday(r, today) && r[..|dates|] == dates
  {
    if CompletedToday(dates, today) then dates[..|dates| - 1] else dates + [today]
  }

  /**
   * `toggleHabitCompletion` as written: the streak is recomputed after an
   * append, and left as it was after a removal.
   */
  method ToggleHabitCompletion(habit: Habit, today: int)
    modifies habit`completedDates, habit`streak
    ensures habit.completedDates == ToggledDates(old(habit.completedDates), today)
    ensures old(habit.IsCompletedToday(today)) ==> habit.streak == old(habit.streak)
    ensures !old(habit.IsCompletedToday(today)) ==>
              habit.streak == StreakOf(habit.completedDates, today)
  {
    if habit.IsCompletedToday(today) {
      var lastIndex := |habit.completedDates| - 1;
      habit.completedDates := habit.completedDates[..lastIndex];
    } else {
      habit.completedDates := habit.completedDates + [today];
      habit.UpdateStreak(today);
    }
  }

  /**
   * The toggle with the streak recomputed on both branches, so that the
   * stored streak always agrees with the completion list.
   */
  method ToggleHabitCompletionRecomputed(habit: Habit, today: int)
    modifies habit`completedDates, habit`streak
    ensures habit.completedDates == ToggledDates(old(habit.completedDates), today)
    ensures habit.streak == StreakOf(habit.completedDates, today)
  {
    if habit.IsCompletedToday(today) {
      var lastIndex := |habit.completedDates| - 1;
      habit.completedDates := habit.completedDates[..lastIndex];
    } else {
      habit.completedDates := habit.completedDates + [today];
    }
    habit.UpdateStreak(today);
  }

  /** Marking done and then undone on the same day restores the list. */
  lemma ToggleTwiceRestores(dates: seq<int>, today: int)
    requires !CompletedToday(dates, today)
    ensures CompletedToday(ToggledDates(dates, today), today)
    ensures ToggledDates(ToggledDates(dates, today), today) == dates
  {
  }

  /**
   * Undoing today's only completion leaves the stored streak at 1 while the
   * streak of the remaining list is 0.
   */
  lemma UndoLeavesStreakStale()
    ensures StreakOf([10], 10) == 1
    ensures ToggledDates([10], 10) == []
    ensures StreakOf(ToggledDates([10], 10), 10) == 0
  {
  }

  /*----------------------------------------------------------------------
   * Category colour
   *----------------------------------------------------------------------*/

  datatype Color = Blue | Green | Red | Purple | Orange | Pink | Teal

  const colorMap: map<string, Color> :=
    map["blue" := Blue, "green" := Green, "red" := Red, "purple" := Purple,
        "orange" := Orange, "pink" := Pink, "teal" := Teal]

  /** `colorMap[habit.color, default: .blue]`. */
  function CategoryColor(name: string): (c: Color)
    ensures name in colorMap ==> c == colorMap[name]
    ensures name !in colorMap ==> c == Blue
  {
    if name in colorMap then colorMap[name] else Blue
  }

  /** Each of the seven colour names selects its own colour; any other name gives blue. */
  lemma CategoryColorTable(name: string)
    ensures name == "green" ==> CategoryColor(name) == Green
    ensures name == "red" ==> CategoryColor(name) == Red
    ensures name == "purple" ==> CategoryColor(name) == Purple
    ensures name == "orange" ==> CategoryColor(name) == Orange
    ensures name == "pink" ==> CategoryColor(name) == Pink
    ensures name == "teal" ==> CategoryColor(name) == Teal
    ensures CategoryColor(name) == Blue <==> name == "blue" || name !in colorMap
    ensures name !in {"blue", "green", "red", "purple", "orange", "pink", "teal"} ==>
              CategoryColor(name) == Blue
  {
  }
}
