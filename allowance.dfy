/** The daily spending allowance, computed the same way by the savings page and the dashboard:
    what is left of the month's plan after fixed costs, savings and the buffer, spread over the
    days of the month and over the days that remain. */
module Allowance {
  import opened Wrappers
  import opened Ledger

  predicate IsLeapYear(y: int)
  {
    (y % 4 == 0 && y % 100 != 0) || y % 400 == 0
  }

  /** `new Date(year, month, 0).getDate()` with a 1-based `month`: the length of that month. */
  function DaysInMonth(year: int, month: int): (n: int)
    requires 1 <= month <= 12
    ensures 28 <= n <= 31
    ensures month == 2 ==> (n == 29 <==> IsLeapYear(year)) && n <= 29
    ensures month != 2 ==> (n == 31 <==> month in {1, 3, 5, 7, 8, 10, 12}) && n >= 30
  {
    if month == 2 then (if IsLeapYear(year) then 29 else 28)
    else if month == 4 || month == 6 || month == 9 || month == 11 then 30
    else 31
  }

  /** A date the clock can produce. */
  predicate ValidDate(d: Date)
  {
    1 <= d.month <= 12 && 1 <= d.day <= DaysInMonth(d.year, d.month)
  }

  /** A `savings_budget_settings` row; any of its amounts may be null. */
  datatype SettingsRow = SettingsRow(monthlyIncomeTarget: Option<real>, fixedExpenses: Option<real>, emergencyBuffer: Option<real>)

  /** The settings the computation uses, every amount present. */
  datatype Settings = Settings(monthlyIncomeTarget: real, fixedExpenses: real, emergencyBuffer: real)

  const NO_SETTINGS: Settings := Settings(0.0, 0.0, 0.0)

  /** `row?.field || 0` for each field: a missing row or a null (or zero) field reads as 0. */
  function Defaulted(row: Option<SettingsRow>): (s: Settings)
    ensures row.None? ==> s == NO_SETTINGS
    ensures row.Some? ==> s.monthlyIncomeTarget == (if row.value.monthlyIncomeTarget.Some? then row.value.monthlyIncomeTarget.value else 0.0)
    ensures row.Some? ==> s.fixedExpenses == (if row.value.fixedExpenses.Some? then row.value.fixedExpenses.value else 0.0)
    ensures row.Some? ==> s.emergencyBuffer == (if row.value.emergencyBuffer.Some? then row.value.emergencyBuffer.value else 0.0)
  {
    match row
    case None => NO_SETTINGS
    case Some(r) => Settings(r.monthlyIncomeTarget.GetOr(0.0), r.fixedExpenses.GetOr(0.0), r.emergencyBuffer.GetOr(0.0))
  }

  /** `availableForSpending`: the income target less fixed expenses, the month's savings target
      and the emergency buffer. */
  function Available(s: Settings, savingsTarget: real): (a: real)
    ensures a + s.fixedExpenses + savingsTarget + s.emergencyBuffer == s.monthlyIncomeTarget
  {
    s.monthlyIncomeTarget - s.fixedExpenses - savingsTarget - s.emergencyBuffer
  }

  function Max(a: real, b: real): real
  {
    if a < b then b else a
  }

  function Min(a: real, b: real): real
  {
    if a < b then a else b
  }

  /** The allowance figures for one day of the month. */
  datatype DailyAllowance = DailyAllowance(baseDailyLimit: real, remainingBudget: real, remainingDays: int, dailyLimit: real)

  /** The base limit (`max(0, available / daysInMonth)`), what is left of the month's budget, the
      days left counting today, and the final limit: the smaller of the base limit and what is
      left spread over the days left. */
  function Compute(available: real, totalExpenses: real, daysInMonth: int, day: int): (a: DailyAllowance)
    requires 1 <= day <= daysInMonth
    ensures a.baseDailyLimit >= 0.0 && a.baseDailyLimit * (daysInMonth as real) == Max(0.0, available)
    ensures a.remainingBudget >= 0.0 && a.remainingBudget >= available - totalExpenses
    ensures a.remainingBudget == 0.0 || a.remainingBudget == available - totalExpenses
    ensures a.remainingDays == daysInMonth - day + 1 && 1 <= a.remainingDays <= daysInMonth
    ensures 0.0 <= a.dailyLimit <= a.baseDailyLimit
    ensures a.dailyLimit * (a.remainingDays as real) <= a.remainingBudget
    ensures a.dailyLimit == a.baseDailyLimit || a.dailyLimit * (a.remainingDays as real) == a.remainingBudget
  {
    var base := Max(0.0, available / daysInMonth as real);
    var remainingBudget := Max(0.0, available - totalExpenses);
    var remainingDays := daysInMonth - day + 1;
    var adjusted := if remainingDays > 0 then remainingBudget / remainingDays as real else 0.0;
    var dailyLimit := Min(base, Max(0.0, adjusted));
    assert adjusted * remainingDays as real == remainingBudget;
    LeMul(dailyLimit, adjusted, remainingDays as real);
    DailyAllowance(base, remainingBudget, remainingDays, dailyLimit)
  }

  lemma LeMul(x: real, y: real, k: real)
    requires x <= y && k >= 0.0
    ensures x * k <= y * k
  {
    assert (y - x) * k >= 0.0;
  }

  lemma MulLe(x: real, y: real, k: real)
    requires x * k <= y * k && k > 0.0
    ensures x <= y
  {
    assert y - x == (y * k - x * k) / k;
  }

  /** The daily limit spent on every day of the month never exceeds what was available. */
  lemma LimitWithinMonth(available: real, totalExpenses: real, daysInMonth: int, day: int)
    requires 1 <= day <= daysInMonth
    ensures Compute(available, totalExpenses, daysInMonth, day).dailyLimit * (daysInMonth as real) <= Max(0.0, available)
  {
    var a := Compute(available, totalExpenses, daysInMonth, day);
    LeMul(a.dailyLimit, a.baseDailyLimit, daysInMonth as real);
  }

  /** A limit whose spread fits a smaller budget is no greater than the limit that spreads the
      larger one exactly. */
  lemma LimitBelowShare(l2: real, l1: real, b2: real, b1: real, d: real)
    requires d > 0.0 && l2 * d <= b2 && b2 <= b1 && l1 * d == b1
    ensures l2 <= l1
  {
    MulLe(l2, l1, d);
  }

  /** Spending the daily limit on every day left never takes the month past what was available. */
  lemma AllowanceKeepsMonthWithinPlan(available: real, totalExpenses: real, daysInMonth: int, day: int)
    requires 1 <= day <= daysInMonth
    requires totalExpenses <= available
    ensures var a := Compute(available, totalExpenses, daysInMonth, day);
      totalExpenses + a.dailyLimit * (a.remainingDays as real) <= available
  {
  }

  /** Spending more so far never raises today's limit. */
  lemma {:induction false} MoreSpendingLowersLimit(available: real, e1: real, e2: real, daysInMonth: int, day: int)
    requires 1 <= day <= daysInMonth
    requires e1 <= e2
    ensures Compute(available, e2, daysInMonth, day).dailyLimit <= Compute(available, e1, daysInMonth, day).dailyLimit
  {
    var a1 := Compute(available, e1, daysInMonth, day);
    var a2 := Compute(available, e2, daysInMonth, day);
    var d := a1.remainingDays as real;
    assert a2.remainingBudget <= a1.remainingBudget;
    if a1.dailyLimit < a1.baseDailyLimit {
      assert a2.remainingDays == a1.remainingDays;
      LimitBelowShare(a2.dailyLimit, a1.dailyLimit, a2.remainingBudget, a1.remainingBudget, d);
    }
  }

  /** `Math.max(0, dailyLimit - spentToday)`: what may still be spent today. */
  function LeftToday(dailyLimit: real, spentToday: real): (r: real)
    ensures r >= 0.0 && r >= dailyLimit - spentToday
    ensures r == 0.0 <==> spentToday >= dailyLimit
  {
    Max(0.0, dailyLimit - spentToday)
  }
}
