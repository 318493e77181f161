/**
 * The month calendar (habit-tracker/Views/Components/CalendarView.swift):
 * the 6-by-7 grid of a month, paging between months, and the colour of a
 * day's number.
 *
 * A grid cell holds the day of the month it shows (the Swift code holds that
 * day's `Date`). The weekday of the 1st and the length of the month come
 * from the platform calendar and are parameters here. Days are whole day
 * numbers and "today" is a parameter.
 */
module Calendar {
  import opened Wrappers

  /** Six rows of seven days. */
  const GridSize := 42

  /**
   * `days()`: `firstWeekday - 1` blank cells (Sunday is weekday 1), the days
   * 1 to `daysInMonth` in order, then blanks up to 42 cells. The requires
   * exclude exactly the inputs on which the Swift code traps: a negative
   * repeat count, or the empty range `1...0`.
   */
  method Days(firstWeekday: int, daysInMonth: int) returns (days: seq<Option<int>>)
    requires 1 <= firstWeekday && 1 <= daysInMonth
    requires firstWeekday - 1 + daysInMonth <= GridSize
    ensures |days| == GridSize
    ensures forall k :: 0 <= k < firstWeekday - 1 ==> days[k] == None
    ensures forall k :: firstWeekday - 1 <= k < firstWeekday - 1 + daysInMonth ==>
              days[k] == Some(k - (firstWeekday - 1) + 1)
    ensures forall k :: firstWeekday - 1 + daysInMonth <= k < GridSize ==> days[k] == None
    ensures forall k :: 0 <= k < |days| && days[k].Some? ==>
              1 <= days[k].value <= daysInMonth && k == firstWeekday - 1 + days[k].value - 1
  {
    var offsetDays := firstWeekday - 1;
    days := seq(offsetDays, _ => None);
    for day := 1 to daysInMonth + 1
      invariant |days| == offsetDays + day - 1
      invariant forall k :: 0 <= k < offsetDays ==> days[k] == None
      invariant forall k :: offsetDays <= k < |days| ==> days[k] == Some(k - offsetDays + 1)
    {
      days := days + [Some(day)];
    }
    var remainingCells := GridSize - |days|;
    days := days + seq(remainingCells, _ => None);
  }

  /** A month of a year, `month` running from 1 to 12. */
  datatype YearMonth = YearMonth(year: int, month: int)

  ghost predicate ValidMonth(ym: YearMonth)
  {
    1 <= ym.month <= 12
  }

  /** Months counted from January of year 0. */
  function MonthNumber(ym: YearMonth): int
  {
    ym.year * 12 + ym.month - 1
  }

  /**
   * `calendar.date(byAdding: .month, value: k, to: currentMonth)`, seen at
   * the granularity the grid uses: the month `k` months later (earlier when
   * `k` is negative).
   */
  function AddMonths(ym: YearMonth, k: int): (r: YearMonth)
    ensures ValidMonth(r)
    ensures MonthNumber(r) == MonthNumber(ym) + k
  {
    var n := MonthNumber(ym) + k;
    YearMonth(n / 12, n % 12 + 1)
  }

  /** Paging forward `k` months and back `k` months returns to the same month. */
  lemma ChangeMonthRoundTrip(ym: YearMonth, k: int)
    requires ValidMonth(ym)
    ensures AddMonths(AddMonths(ym, k), -k) == ym
  {
  }

  /** `completionData[date, default: false]`: a day with no entry is not completed. */
  function IsCompletedOn(completionData: map<int, bool>, date: int): (done: bool)
    ensures date !in completionData ==> !done
    ensures date in completionData ==> done == completionData[date]
  {
    if date in completionData then completionData[date] else false
  }

  class CalendarView {
    const completionData: map<int, bool>
    var currentMonth: YearMonth

    constructor (completionData: map<int, bool>, today: YearMonth)
      requires ValidMonth(today)
      ensures ValidMonth(currentMonth)
      ensures this.completionData == completionData && currentMonth == today
    {
      this.completionData := completionData;
      currentMonth := today;
    }

    method ChangeMonth(value: int)
      modifies this
      ensures currentMonth == AddMonths(old(currentMonth), value)
      ensures ValidMonth(currentMonth)
    {
      currentMonth := AddMonths(currentMonth, value);
    }
  }

  /** The colours a day's number is drawn in. */
  datatype TextColor = TextPrimary | White | TextSecondary

  /** `DayCell.textColor`: today first, then completed, then the rest. */
  function DayTextColor(date: int, today: int, isCompleted: bool): (c: TextColor)
    ensures c == TextPrimary <==> date == today
    ensures c == White <==> date != today && isCompleted
    ensures c == TextSecondary <==> date != today && !isCompleted
  {
    if date == today then TextPrimary
    else if isCompleted then White
    else TextSecondary
  }
}
