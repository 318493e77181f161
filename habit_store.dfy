/**
 * The list prototype's store (habit-tracker/Models/HabitModel.swift): an
 * ordered list of habits updated in place by id, and a per-day record of
 * whether every habit was completed or disabled.
 *
 * Habit ids (Swift `UUID`s) are integers chosen by the caller; calendar days
 * are whole day numbers, with "today" passed in.
 */
module HabitStore {
  import opened Wrappers

  type HabitId = int

  datatype Habit = Habit(id: HabitId, title: string, time: string, isCompleted: bool, isEnabled: bool)

  /** `Habit(title:time:)`: a new habit starts not completed and enabled. */
  function NewHabit(id: HabitId, title: string, time: string): (h: Habit)
    ensures h.id == id && h.title == title && h.time == time
    ensures !h.isCompleted && h.isEnabled
    ensures !AllDoneOrDisabled([h])
  {
    Habit(id, title, time, false, true)
  }

  /** The two flags a habit toggles. */
  datatype Flag = Completed | Enabled

  function Flip(h: Habit, flag: Flag): Habit
  {
    match flag
    case Completed => h.(isCompleted := !h.isCompleted)
    case Enabled => h.(isEnabled := !h.isEnabled)
  }

  /** `habits.firstIndex(where: { $0.id == habitId })`. */
  function FirstIndex(habits: seq<Habit>, id: HabitId): (r: Option<nat>)
    ensures r.Some? ==> r.value < |habits| && habits[r.value].id == id
    ensures r.Some? ==> forall j :: 0 <= j < r.value ==> habits[j].id != id
    ensures r.None? <==> forall j :: 0 <= j < |habits| ==> habits[j].id != id
  {
    if habits == [] then None
    else if habits[0].id == id then Some(0)
    else
      match FirstIndex(habits[1..], id)
      case None => None
      case Some(i) => Some(i + 1)
  }

  /** True of the habit at `k` when it is the first one carrying `id`. */
  ghost predicate IsFirstWithId(habits: seq<Habit>, k: int, id: HabitId)
    requires 0 <= k < |habits|
  {
    habits[k].id == id && forall j :: 0 <= j < k ==> habits[j].id != id
  }

  /** Toggles one flag of the first habit carrying `id`; nothing else moves. */
  function FlipFirst(habits: seq<Habit>, id: HabitId, flag: Flag): (r: seq<Habit>)
    ensures |r| == |habits|
    ensures forall k :: 0 <= k < |habits| ==>
              r[k] == if IsFirstWithId(habits, k, id) then Flip(habits[k], flag) else habits[k]
  {
    match FirstIndex(habits, id)
    case None => habits
    case Some(i) => habits[i := Flip(habits[i], flag)]
  }

  /** `habits.allSatisfy({ $0.isCompleted || !$0.isEnabled })`. */
  function AllDoneOrDisabled(habits: seq<Habit>): (b: bool)
    ensures b <==> forall k :: 0 <= k < |habits| ==> habits[k].isCompleted || !habits[k].isEnabled
  {
    habits == [] ||
    ((habits[0].isCompleted || !habits[0].isEnabled) && AllDoneOrDisabled(habits[1..]))
  }

  /** `habits.removeAll { $0.id == id }`. */
  function RemoveAll(habits: seq<Habit>, id: HabitId): (r: seq<Habit>)
    ensures forall h :: h in r <==> h in habits && h.id != id
    ensures |r| <= |habits|
    ensures (forall k :: 0 <= k < |habits| ==> habits[k].id != id) ==> r == habits
  {
    if habits == [] then []
    else if habits[0].id == id then RemoveAll(habits[1..], id)
    else
      assert habits == [habits[0]] + habits[1..];
      [habits[0]] + RemoveAll(habits[1..], id)
  }

  /** The three habits installed when nothing was stored. */
  function DefaultHabits(ids: (HabitId, HabitId, HabitId)): (r: seq<Habit>)
    ensures |r| == 3
    ensures r[0].title == "Meditate" && r[1].title == "Workout" && r[2].title == "Read"
    ensures r[0].time == "7am" && r[1].time == "12pm" && r[2].time == "8pm"
    ensures forall k :: 0 <= k < |r| ==> !r[k].isCompleted && r[k].isEnabled
    ensures !AllDoneOrDisabled(r)
  {
    [NewHabit(ids.0, "Meditate", "7am"), NewHabit(ids.1, "Workout", "12pm"),
     NewHabit(ids.2, "Read", "8pm")]
  }

  class HabitStore {
    var habits: seq<Habit>
    /** Day number to "every habit completed or disabled that day". */
    var completionData: map<int, bool>

    /**
     * `loaded` is what `loadHabits` decoded (empty when nothing was stored or
     * decoding failed), `defaultIds` the fresh ids of the three defaults, and
     * `sampleData` the result of the random `generateSampleCompletionData`.
     */
    constructor (loaded: seq<Habit>, defaultIds: (HabitId, HabitId, HabitId), sampleData: map<int, bool>)
      ensures loaded != [] ==> habits == loaded
      ensures loaded == [] ==> habits == DefaultHabits(defaultIds)
      ensures completionData == sampleData
    {
      habits := loaded;
      completionData := sampleData;
      new;
      if habits == [] {
        habits := DefaultHabits(defaultIds);
      }
    }

    function HabitCount(): (count: nat)
      reads this
      ensures count == 0 <==> habits == []
      ensures forall h :: h in habits ==> 0 < count
    {
      |habits|
    }

    /**
     * Flips `isCompleted` of the first habit with this id, then records for
     * today whether every habit is completed or disabled, even when no habit
     * has the id.
     */
    method ToggleCompleted(habitId: HabitId, today: int)
      modifies this
      ensures habits == FlipFirst(old(habits), habitId, Completed)
      ensures completionData == old(completionData)[today := AllDoneOrDisabled(habits)]
    {
      var index := FirstIndex(habits, habitId);
      if index.Some? {
        var i := index.value;
        habits := habits[i := habits[i].(isCompleted := !habits[i].isCompleted)];
      }
      if AllDoneOrDisabled(habits) {
        completionData := completionData[today := true];
      } else {
        completionData := completionData[today := false];
      }
    }

    /** Flips `isEnabled` of the first habit with this id. */
    method ToggleEnabled(habitId: HabitId)
      modifies this
      ensures habits == FlipFirst(old(habits), habitId, Enabled)
      ensures completionData == old(completionData)
    {
      var index := FirstIndex(habits, habitId);
      if index.Some? {
        var i := index.value;
        habits := habits[i := habits[i].(isEnabled := !habits[i].isEnabled)];
      }
    }

    /** Appends one new habit; `newId` is the fresh `UUID()` it receives. */
    method AddHabit(title: string, time: string, newId: HabitId)
      modifies this
      ensures habits == old(habits) + [NewHabit(newId, title, time)]
      ensures HabitCount() == old(HabitCount()) + 1
      ensures completionData == old(completionData)
    {
      var newHabit := NewHabit(newId, title, time);
      habits := habits + [newHabit];
    }

    /** Removes every habit with this id. */
    method DeleteHabit(id: HabitId)
      modifies this
      ensures habits == RemoveAll(old(habits), id)
      ensures completionData == old(completionData)
    {
      habits := RemoveAll(habits, id);
    }
  }

  /*----------------------------------------------------------------------
   * Lemmas
   *----------------------------------------------------------------------*/

  /** Toggling the same habit's flag twice restores the list. */
  lemma FlipFirstTwice(habits: seq<Habit>, id: HabitId, flag: Flag)
    ensures FlipFirst(FlipFirst(habits, id, flag), id, flag) == habits
  {
  }

  /** An id no habit carries leaves the list as it is. */
  lemma FlipFirstUnknownId(habits: seq<Habit>, id: HabitId, flag: Flag)
    requires forall k :: 0 <= k < |habits| ==> habits[k].id != id
    ensures FlipFirst(habits, id, flag) == habits
  {
  }

  /** With no habits, today counts as fully done. */
  lemma NoHabitsAllDone()
    ensures AllDoneOrDisabled([])
  {
  }

  /**
   * Removal keeps the surviving habits in their original order: removing
   * from a concatenation removes from each part.
   */
  lemma {:induction false} RemoveAllKeepsOrder(a: seq<Habit>, b: seq<Habit>, id: HabitId)
    ensures RemoveAll(a + b, id) == RemoveAll(a, id) + RemoveAll(b, id)
  {
    if a == [] {
      assert a + b == b;
    } else {
      assert (a + b)[0] == a[0];
      assert (a + b)[1..] == a[1..] + b;
      RemoveAllKeepsOrder(a[1..], b, id);
    }
  }

  /** After removal no habit with the id is left, so a second removal changes nothing. */
  lemma RemoveAllIdempotent(habits: seq<Habit>, id: HabitId)
    ensures RemoveAll(RemoveAll(habits, id), id) == RemoveAll(habits, id)
  {
  }
}
