/**
 * The SwiftData prototype's habit (habit-tracker/Item.swift) and its streak.
 *
 * Dates are whole day numbers (consecutive calendar days differ by one) and
 * the clock is a `today` parameter. Foundation's
 * `dateComponents([.day], from: a, to: b).day` then becomes `b - a`, and
 * `isDateInToday(d)` becomes `d == today`.
 */
module Streak {

  /*----------------------------------------------------------------------
   * Helper definitions on sequences of day numbers
   *----------------------------------------------------------------------*/

  /** The distinct days of a list of completions. */
  function Days(dates: seq<int>): set<int>
  {
    set d | d in dates
  }

  /** Each day is at most the next one. */
  ghost predicate IsSorted(s: seq<int>)
  {
    |s| < 2 || (s[0] <= s[1] && IsSorted(s[1..]))
  }

  /** The latest completion. */
  function Latest(dates: seq<int>): (m: int)
    requires |dates| > 0
    ensures m in dates
    ensures forall d :: d in dates ==> d <= m
  {
    if |dates| == 1 then dates[0]
    else
      var rest := Latest(dates[1..]);
      assert forall d :: d in dates ==> d == dates[0] || d in dates[1..];
      if dates[0] < rest then rest else dates[0]
  }

  /** Inserting one day into a sorted list keeps it sorted. */
  function Insert(x: int, s: seq<int>): (r: seq<int>)
    requires IsSorted(s)
    ensures IsSorted(r)
    ensures multiset(r) == multiset(s) + multiset{x}
    ensures r[0] == if s == [] || x <= s[0] then x else s[0]
  {
    if s == [] then [x]
    else if x <= s[0] then
      assert ([x] + s)[1..] == s;
      [x] + s
    else
      var tail := Insert(x, s[1..]);
      assert s == [s[0]] + s[1..];
      assert ([s[0]] + tail)[1..] == tail;
      [s[0]] + tail
  }

  /** `completedDates.sorted()`: the ascending permutation of the dates. */
  function Sorted(s: seq<int>): (r: seq<int>)
    ensures IsSorted(r)
    ensures multiset(r) == multiset(s)
  {
    if s == [] then []
    else
      assert s == [s[0]] + s[1..];
      Insert(s[0], Sorted(s[1..]))
  }

  /*----------------------------------------------------------------------
   * The streak, stated without the loop
   *----------------------------------------------------------------------*/

  /** The number of consecutive days ending at `day` that all lie in `done`. */
  function RunEndingAt(done: set<int>, day: int): nat
    decreases done
  {
    if day in done then 1 + RunEndingAt(done - {day}, day - 1) else 0
  }

  /**
   * The streak `updateStreak` stores: the length of the run of distinct
   * consecutive days that ends at the latest completion, provided that day
   * is today or yesterday; 0 otherwise, and 0 when nothing was completed.
   */
  function StreakOf(dates: seq<int>, today: int): nat
  {
    if |dates| == 0 then 0
    else
      var last := Latest(dates);
      if last == today || last == today - 1 then RunEndingAt(Days(dates), last) else 0
  }

  /** `isCompletedToday`: only the last entry, in insertion order, is consulted. */
  predicate CompletedToday(dates: seq<int>, today: int)
    ensures CompletedToday(dates, today) ==> today in dates
    ensures dates == [] ==> !CompletedToday(dates, today)
  {
    |dates| > 0 && dates[|dates| - 1] == today
  }

  /**
   * The count the backward walk of `updateStreak` ends with, resumed at
   * index `i` of `s` with the run so far starting at `current` and
   * `count` days long: a step to the day before extends the run, a larger
   * gap ends it, and a repeated day is skipped.
   */
  ghost function WalkBack(s: seq<int>, i: nat, current: int, count: int): int
    requires i < |s|
  {
    if i == 0 then count
    else if current - s[i - 1] == 1 then WalkBack(s, i - 1, s[i - 1], count + 1)
    else if current - s[i - 1] > 1 then count
    else WalkBack(s, i - 1, current, count)
  }

  /*----------------------------------------------------------------------
   * The habit
   *----------------------------------------------------------------------*/

  class Habit {
    var title: string
    var habitDescription: string
    var category: string
    var createdAt: int
    var completedDates: seq<int>
    var targetDaysPerWeek: int
    var streak: int
    var color: string

    /** `Date()` at creation is the parameter `now`. */
    constructor (title: string, habitDescription: string, category: string,
                 targetDaysPerWeek: int, color: string, now: int)
      ensures this.title == title && this.habitDescription == habitDescription
      ensures this.category == category && this.targetDaysPerWeek == targetDaysPerWeek
      ensures this.color == color && createdAt == now
      ensures completedDates == [] && streak == 0
      ensures streak == StreakOf(completedDates, now)
    {
      this.title := title;
      this.habitDescription := habitDescription;
      this.category := category;
      createdAt := now;
      completedDates := [];
      this.targetDaysPerWeek := targetDaysPerWeek;
      streak := 0;
      this.color := color;
    }

    predicate IsCompletedToday(today: int)
      reads this
    {
      CompletedToday(completedDates, today)
    }

    /** Sorts the dates and walks backwards from the latest one. */
    method UpdateStreak(today: int)
      modifies this`streak
      ensures streak == StreakOf(completedDates, today)
    {
      if |completedDates| == 0 {
        streak := 0;
        return;
      }
      var sortedDates := Sorted(completedDates);
      StreakFromWalk(completedDates, sortedDates, today);
      var n := |sortedDates|;
      var currentStreak := 1;
      var currentDate := sortedDates[n - 1];
      var i := n - 1;
      while i > 0
        invariant 0 <= i < n
        invariant WalkBack(sortedDates, i, currentDate, currentStreak) ==
                  WalkBack(sortedDates, n - 1, sortedDates[n - 1], 1)
      {
        i := i - 1;
        var previousDate := sortedDates[i];
        var daysBetween := currentDate - previousDate;
        if daysBetween == 1 {
          currentStreak := currentStreak + 1;
          currentDate := previousDate;
        } else if daysBetween > 1 {
          break;
        }
      }
      var lastCompletionDate := sortedDates[n - 1];
      if lastCompletionDate == today || lastCompletionDate == today - 1 {
        streak := currentStreak;
      } else {
        streak := 0;
      }
    }
  }

  /*----------------------------------------------------------------------
   * Lemmas
   *----------------------------------------------------------------------*/

  /**
   * The run length is `c` exactly when the `c` days ending at `day` are all
   * done and the day before them is not: the first gap ends the count.
   */
  lemma {:induction false} RunCharacterized(done: set<int>, day: int, c: nat)
    ensures RunEndingAt(done, day) == c <==>
            (forall d :: day - c < d <= day ==> d in done) && day - c !in done
    decreases c
  {
    if c == 0 {
    } else if day !in done {
    } else {
      var rest := done - {day};
      RunCharacterized(rest, day - 1, c - 1);
      if forall d :: day - c < d <= day ==> d in done {
        forall d | day - c < d <= day - 1 ensures d in rest {
          assert d in done;
        }
      }
      if forall d :: day - c < d <= day - 1 ==> d in rest {
        forall d | day - c < d <= day ensures d in done {
          if d < day { assert d in rest; }
        }
      }
    }
  }

  /** A run never counts more days than there are distinct completed days. */
  lemma {:induction false} RunAtMostDays(done: set<int>, day: int)
    ensures RunEndingAt(done, day) <= |done|
    decreases done
  {
    if day in done {
      RunAtMostDays(done - {day}, day - 1);
    }
  }

  /** A list holds at least as many entries as distinct days. */
  lemma {:induction false} DaysAtMostEntries(dates: seq<int>)
    ensures |Days(dates)| <= |dates|
  {
    if dates != [] {
      DaysAtMostEntries(dates[1..]);
      assert Days(dates) == {dates[0]} + Days(dates[1..]);
    }
  }

  /** In a sorted list every day is at most each later one. */
  lemma {:induction false} SortedAt(s: seq<int>, i: int, j: int)
    requires IsSorted(s) && 0 <= i <= j < |s|
    ensures s[i] <= s[j]
    decreases |s|
  {
    if 0 < i {
      SortedAt(s[1..], i - 1, j - 1);
    } else if 0 < j {
      SortedAt(s[1..], 0, j - 1);
    }
  }

  /** A day strictly between two neighbours of a sorted list is not in it. */
  lemma AbsentFromSorted(s: seq<int>, k: int, x: int)
    requires IsSorted(s) && 0 <= k <= |s|
    requires k > 0 ==> s[k - 1] < x
    requires k < |s| ==> x < s[k]
    ensures x !in s
  {
    forall j | 0 <= j < |s| ensures s[j] != x {
      if j < k { SortedAt(s, j, k - 1); } else { SortedAt(s, k, j); }
    }
  }

  /**
   * Resumed over a sorted list at a run of `count` days ending at the last
   * element, the walk ends with a run every day of which occurs in the list
   * and whose day before does not.
   */
  lemma {:induction false} WalkFindsRun(s: seq<int>, i: nat, current: int, count: int)
    requires IsSorted(s) && i < |s| && s[i] == current && 1 <= count
    requires current == s[|s| - 1] - count + 1
    requires forall d :: current <= d <= s[|s| - 1] ==> d in s
    ensures var r, last := WalkBack(s, i, current, count), s[|s| - 1];
      && count <= r
      && (forall d :: last - r < d <= last ==> d in s)
      && last - r !in s
    decreases i
  {
    if i == 0 {
      AbsentFromSorted(s, 0, current - 1);
    } else {
      SortedAt(s, i - 1, i);
      var previous := s[i - 1];
      if current - previous == 1 {
        WalkFindsRun(s, i - 1, previous, count + 1);
      } else if current - previous > 1 {
        AbsentFromSorted(s, i, current - 1);
      } else {
        WalkFindsRun(s, i - 1, current, count);
      }
    }
  }

  /**
   * The walk over the sorted dates, started at the latest one, counts the
   * run ending there; the streak is that count when the latest completion
   * is today or yesterday.
   */
  lemma StreakFromWalk(dates: seq<int>, sorted: seq<int>, today: int)
    requires |dates| > 0
    requires IsSorted(sorted) && multiset(sorted) == multiset(dates)
    ensures |sorted| == |dates|
    ensures var last := sorted[|sorted| - 1];
      StreakOf(dates, today) ==
        if last == today || last == today - 1 then WalkBack(sorted, |sorted| - 1, last, 1) else 0
  {
    LatestOfSorted(dates, sorted);
    var last := sorted[|sorted| - 1];
    WalkFindsRun(sorted, |sorted| - 1, last, 1);
    SameEntriesSameDays(dates, sorted);
    RunCharacterized(Days(dates), last, WalkBack(sorted, |sorted| - 1, last, 1));
  }

  /** Two lists with the same entries, counted with multiplicity, have the same days. */
  lemma SameEntriesSameDays(a: seq<int>, b: seq<int>)
    requires multiset(a) == multiset(b)
    ensures forall d :: d in a <==> d in b
    ensures Days(a) == Days(b)
  {
    forall d ensures d in a <==> d in b {
      assert d in a <==> d in multiset(a);
      assert d in b <==> d in multiset(b);
    }
  }

  /** The last element of the sorted dates is the latest completion. */
  lemma LatestOfSorted(dates: seq<int>, sorted: seq<int>)
    requires |dates| > 0
    requires IsSorted(sorted) && multiset(sorted) == multiset(dates)
    ensures |sorted| == |dates|
    ensures Latest(dates) == sorted[|sorted| - 1]
  {
    assert |sorted| == |multiset(sorted)| == |multiset(dates)| == |dates|;
    SameEntriesSameDays(dates, sorted);
    var m := Latest(dates);
    var top := sorted[|sorted| - 1];
    assert top in dates;
    assert m <= top by {
      var k :| 0 <= k < |sorted| && sorted[k] == m;
      SortedAt(sorted, k, |sorted| - 1);
    }
  }

  /**
   * `isCompletedToday` reads the last entry only: an earlier completion today
   * does not count once a later entry for another day has been appended.
   */
  lemma CompletedTodayReadsLastEntry(dates: seq<int>, entry: int, today: int)
    ensures CompletedToday(dates + [entry], today) <==> entry == today
    ensures CompletedToday([today, today - 1], today) == false
  {
  }

  /** A habit with no completions has streak 0. */
  lemma NoCompletionsNoStreak(today: int)
    ensures StreakOf([], today) == 0
  {
  }

  /** The streak never exceeds the number of entries in `completedDates`. */
  lemma StreakAtMostEntries(dates: seq<int>, today: int)
    ensures StreakOf(dates, today) <= |dates|
  {
    if |dates| > 0 {
      RunAtMostDays(Days(dates), Latest(dates));
      DaysAtMostEntries(dates);
    }
  }

  /** If the latest completion is neither today nor yesterday, the streak is 0. */
  lemma StaleLatestMeansNoStreak(dates: seq<int>, today: int)
    requires |dates| > 0 && Latest(dates) != today && Latest(dates) != today - 1
    ensures StreakOf(dates, today) == 0
  {
  }

  /**
   * If the latest completion is today or yesterday, the streak is at least 1
   * and is the number `c` of distinct consecutive days ending at it: each of
   * those `c` days was completed and the day before them was not.
   */
  lemma LiveStreakIsRun(dates: seq<int>, today: int)
    requires |dates| > 0 && (Latest(dates) == today || Latest(dates) == today - 1)
    ensures var c := StreakOf(dates, today);
      var last := Latest(dates);
      && 1 <= c
      && (forall d :: last - c < d <= last ==> d in dates)
      && last - c !in dates
  {
    var last := Latest(dates);
    var done := Days(dates);
    var c := RunEndingAt(done, last);
    assert c == StreakOf(dates, today);
    RunCharacterized(done, last, c);
    RunCharacterized(done, last, 0);
    assert last - c !in dates by {
      assert last - c !in done;
    }
    forall d | last - c < d <= last ensures d in dates {
      assert d in done;
    }
  }

  /** The streak does not depend on the order of `completedDates`. */
  lemma StreakIgnoresOrder(a: seq<int>, b: seq<int>, today: int)
    requires multiset(a) == multiset(b)
    ensures StreakOf(a, today) == StreakOf(b, today)
  {
    SameEntriesSameDays(a, b);
    if |a| > 0 {
      assert a[0] in a;
      var ma, mb := Latest(a), Latest(b);
      assert ma <= mb && mb <= ma;
    }
  }

  /** Another completion on a day already completed changes nothing. */
  lemma SameDayCountsOnce(dates: seq<int>, day: int, today: int)
    requires day in dates
    ensures StreakOf(dates + [day], today) == StreakOf(dates, today)
  {
    var more := dates + [day];
    assert Days(more) == Days(dates);
    var ma, mb := Latest(more), Latest(dates);
    assert mb in more;
    assert ma <= mb && mb <= ma;
  }
}
