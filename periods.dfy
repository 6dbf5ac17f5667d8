/** The report periods of the reports page and the family statistics page: the `selectedPeriod`
    value chosen in the period selector, turned into an inclusive date window ending today (or at
    the end of the earlier month or year it names). */
module Periods {
  import opened Ledger
  import opened Allowance

  const CURRENT_MONTH: string := "current-month"
  const LAST_MONTH: string := "last-month"
  const CURRENT_YEAR: string := "current-year"
  const LAST_YEAR: string := "last-year"
  const LAST_3_MONTHS: string := "last-3-months"
  const LAST_6_MONTHS: string := "last-6-months"

  /** `new Date(year, month - 1, 1)` with a 1-based `month` that may lie outside `1..12`: the
      constructor carries whole years, so the result is the first day of the month that is
      `month - 1` months after January of `year`. */
  function MonthStart(year: int, month: int): (d: Date)
    ensures 1 <= d.month <= 12 && d.day == 1
    ensures d.year * 12 + (d.month - 1) == year * 12 + (month - 1)
  {
    var index := year * 12 + (month - 1);
    Date(index / 12, index % 12 + 1, 1)
  }

  /** `new Date(year, month - 1, 0)`: the last day of the month before `month`. */
  function LastDayBefore(year: int, month: int): (d: Date)
    ensures ValidDate(d)
    ensures var prev := MonthStart(year, month - 1); d.year == prev.year && d.month == prev.month
    ensures d.day == DaysInMonth(d.year, d.month)
  {
    var prev := MonthStart(year, month - 1);
    Date(prev.year, prev.month, DaysInMonth(prev.year, prev.month))
  }

  /** The first day of the month of `today`. */
  function MonthOf(today: Date): Date
  {
    MonthStart(today.year, today.month)
  }

  /** The reports page's `getFilteredTransactions` window for `period`; any other value is the
      current month, as is "current-month" itself. */
  function ReportWindow(period: string, today: Date): (w: Window)
    requires ValidDate(today)
    ensures ValidDate(w.start) && w.start.day == 1
    ensures ValidDate(w.end) && DateLe(w.start, w.end)
    ensures period == LAST_MONTH ==> w.start.year == w.end.year && w.start.month == w.end.month
                                     && w.end.day == DaysInMonth(w.end.year, w.end.month)
                                     && DateLe(w.end, today) && w.end != today
    ensures period == LAST_YEAR ==> w == Window(Date(today.year - 1, 1, 1), Date(today.year - 1, 12, 31))
    ensures period != LAST_MONTH && period != LAST_YEAR ==> w.end == today
    ensures period == CURRENT_YEAR ==> w.start == Date(today.year, 1, 1)
    ensures period == LAST_3_MONTHS ==> w.start == MonthStart(today.year, today.month - 3)
    ensures period == LAST_6_MONTHS ==> w.start == MonthStart(today.year, today.month - 6)
    ensures period !in {LAST_MONTH, CURRENT_YEAR, LAST_YEAR, LAST_3_MONTHS, LAST_6_MONTHS} ==>
              w == Window(Date(today.year, today.month, 1), today)
  {
    if period == CURRENT_MONTH then Window(MonthStart(today.year, today.month), today)
    else if period == LAST_MONTH then
      Window(MonthStart(today.year, today.month - 1), LastDayBefore(today.year, today.month))
    else if period == CURRENT_YEAR then Window(MonthStart(today.year, 1), today)
    else if period == LAST_YEAR then Window(MonthStart(today.year - 1, 1), Date(today.year - 1, 12, 31))
    else if period == LAST_3_MONTHS then Window(MonthStart(today.year, today.month - 3), today)
    else if period == LAST_6_MONTHS then Window(MonthStart(today.year, today.month - 6), today)
    else Window(MonthStart(today.year, today.month), today)
  }

  /** The family statistics page's window: the same switch without the "last-year" and
      "last-6-months" cases, which fall through to the current month there. */
  function FamilyWindow(period: string, today: Date): (w: Window)
    requires ValidDate(today)
    ensures period in {CURRENT_MONTH, LAST_MONTH, CURRENT_YEAR, LAST_3_MONTHS} ==> w == ReportWindow(period, today)
    ensures period !in {LAST_MONTH, CURRENT_YEAR, LAST_3_MONTHS} ==> w == ReportWindow(CURRENT_MONTH, today)
  {
    if period == CURRENT_MONTH then Window(MonthStart(today.year, today.month), today)
    else if period == LAST_MONTH then
      Window(MonthStart(today.year, today.month - 1), LastDayBefore(today.year, today.month))
    else if period == CURRENT_YEAR then Window(MonthStart(today.year, 1), today)
    else if period == LAST_3_MONTHS then Window(MonthStart(today.year, today.month - 3), today)
    else Window(MonthStart(today.year, today.month), today)
  }

  /** Every window that ends today contains today's date. Read on calendar dates, without time
      zones, today's transactions are therefore reported. */
  lemma WindowsEndingTodayContainToday(period: string, today: Date)
    requires ValidDate(today)
    requires period != LAST_MONTH && period != LAST_YEAR
    ensures InWindow(today, ReportWindow(period, today))
  {
  }

  /** A date lies in the current-month window exactly when it is in today's month and not after today. */
  lemma CurrentMonthWindow(today: Date, d: Date)
    requires ValidDate(today)
    ensures InWindow(d, ReportWindow(CURRENT_MONTH, today))
            <==> d.year == today.year && d.month == today.month && 1 <= d.day <= today.day
  {
  }

  /** Last month's window is the previous calendar month, December of last year in January. */
  lemma LastMonthWindow(today: Date)
    requires ValidDate(today)
    ensures var w := ReportWindow(LAST_MONTH, today);
      && (today.month == 1 ==> w.start == Date(today.year - 1, 12, 1) && w.end == Date(today.year - 1, 12, 31))
      && (today.month > 1 ==> w.start == Date(today.year, today.month - 1, 1))
  {
  }
}
