/**
 * The session store (habit-tracker/Models/SessionData.swift): fields that
 * the app's screens reassign during a session, and the logout reset.
 *
 * Instants (`Date()`) are integers supplied by the caller as `now`; the
 * `Any` values of the untyped dictionaries are the datatype `Value`.
 */
module Session {
  import opened Wrappers

  /** A value stored in one of the untyped `[String: Any]` dictionaries. */
  datatype Value = IntValue(n: int) | OtherValue(description: string)

  /** Every published field of the session, in declaration order. */
  datatype State = State(
    userData: map<string, Value>,
    viewHistory: seq<string>,
    currentStreak: int,
    todayCompletionRate: real,
    lastActiveDate: int,
    notificationsEnabled: bool,
    themeMode: string,
    habitCompletedCount: int,
    sessionStartTime: int,
    selectedHabitIds: set<string>,
    currentlyViewedHabitId: Option<string>,
    cachedHabits: map<string, Value>,
    cachedCompletionData: map<string, Value>)

  /** The field defaults of a new session started at `now`. */
  function Initial(now: int): State
  {
    State(map[], [], 0, 0.0, now, true, "system", 0, now, {}, None, map[], map[])
  }

  /** Selecting a habit that is selected deselects it, and the other way round. */
  function Toggled(ids: set<string>, habitId: string): (r: set<string>)
    ensures habitId in r <==> habitId !in ids
    ensures forall other :: other != habitId ==> (other in r <==> other in ids)
  {
    if habitId in ids then ids - {habitId} else ids + {habitId}
  }

  /**
   * The logout reset: the session's data, history, caches, selection and
   * counter are emptied and a new session starts at `now`; the streak, the
   * completion rate, the last active date and the two settings survive.
   */
  function Cleared(s: State, now: int): (r: State)
    ensures r.userData == map[] && r.viewHistory == [] && r.selectedHabitIds == {}
    ensures r.cachedHabits == map[] && r.cachedCompletionData == map[]
    ensures r.habitCompletedCount == 0 && r.currentlyViewedHabitId == None
    ensures r.sessionStartTime == now
    ensures r.currentStreak == s.currentStreak && r.todayCompletionRate == s.todayCompletionRate
    ensures r.lastActiveDate == s.lastActiveDate
    ensures r.notificationsEnabled == s.notificationsEnabled && r.themeMode == s.themeMode
  {
    s.(userData := map[], viewHistory := [], cachedHabits := map[],
       cachedCompletionData := map[], habitCompletedCount := 0,
       sessionStartTime := now, selectedHabitIds := {}, currentlyViewedHabitId := None)
  }

  class SessionData {
    var userData: map<string, Value>
    var viewHistory: seq<string>
    var currentStreak: int
    var todayCompletionRate: real
    var lastActiveDate: int
    var notificationsEnabled: bool
    var themeMode: string
    var habitCompletedCount: int
    var sessionStartTime: int
    var selectedHabitIds: set<string>
    var currentlyViewedHabitId: Option<string>
    var cachedHabits: map<string, Value>
    var cachedCompletionData: map<string, Value>

    /** The session's fields as one value. */
    function Snapshot(): State
      reads this
    {
      State(userData, viewHistory, currentStreak, todayCompletionRate, lastActiveDate,
            notificationsEnabled, themeMode, habitCompletedCount, sessionStartTime,
            selectedHabitIds, currentlyViewedHabitId, cachedHabits, cachedCompletionData)
    }

    constructor (now: int)
      ensures Snapshot() == Initial(now)
    {
      userData := map[];
      viewHistory := [];
      currentStreak := 0;
      todayCompletionRate := 0.0;
      lastActiveDate := now;
      notificationsEnabled := true;
      themeMode := "system";
      habitCompletedCount := 0;
      sessionStartTime := now;
      selectedHabitIds := {};
      currentlyViewedHabitId := None;
      cachedHabits := map[];
      cachedCompletionData := map[];
    }

    /** Appends the view's name to the history; earlier entries stay. */
    method NavigateToView(viewName: string)
      modifies this
      ensures |viewHistory| == |old(viewHistory)| + 1
      ensures viewHistory[..|old(viewHistory)|] == old(viewHistory)
      ensures viewHistory[|old(viewHistory)|] == viewName
      ensures Snapshot() == old(Snapshot()).(viewHistory := viewHistory)
    {
      viewHistory := viewHistory + [viewName];
    }

    /** Mirrors the streak into `userData["streak"]`. */
    method UpdateStreak(count: int)
      modifies this
      ensures currentStreak == count
      ensures "streak" in userData && userData["streak"] == IntValue(count)
      ensures forall key :: key != "streak" ==>
                (key in userData <==> key in old(userData)) &&
                (key in userData ==> userData[key] == old(userData)[key])
      ensures Snapshot() == old(Snapshot()).(currentStreak := count, userData := userData)
    {
      currentStreak := count;
      userData := userData["streak" := IntValue(count)];
    }

    method ToggleHabitSelection(habitId: string)
      modifies this
      ensures selectedHabitIds == Toggled(old(selectedHabitIds), habitId)
      ensures Snapshot() == old(Snapshot()).(selectedHabitIds := selectedHabitIds)
    {
      if habitId in selectedHabitIds {
        selectedHabitIds := selectedHabitIds - {habitId};
      } else {
        selectedHabitIds := selectedHabitIds + {habitId};
      }
    }

    method SetCurrentHabit(habitId: Option<string>)
      modifies this
      ensures Snapshot() == old(Snapshot()).(currentlyViewedHabitId := habitId)
    {
      currentlyViewedHabitId := habitId;
    }

    /** `Date()` at the reset is the parameter `now`. */
    method ClearSession(now: int)
      modifies this
      ensures Snapshot() == Cleared(old(Snapshot()), now)
    {
      userData := map[];
      viewHistory := [];
      cachedHabits := map[];
      cachedCompletionData := map[];
      habitCompletedCount := 0;
      sessionStartTime := now;
      selectedHabitIds := {};
      currentlyViewedHabitId := None;
    }
  }

  /** Toggling the same habit's selection twice restores the selection. */
  lemma ToggledTwice(ids: set<string>, habitId: string)
    ensures Toggled(Toggled(ids, habitId), habitId) == ids
  {
  }

  /** A second reset changes only the session start time. */
  lemma ClearedTwice(s: State, first: int, second: int)
    ensures Cleared(Cleared(s, first), second) == Cleared(s, first).(sessionStartTime := second)
    ensures Cleared(Cleared(s, first), second) == Cleared(s, second)
  {
  }
}
