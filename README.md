# moneyapp, modelled in Dafny

moneyapp is a personal and family finance tracker built as a Next.js application on a hosted
database. Users record income and expense transactions under categories. They set monthly
category budgets and savings goals, see a daily spending allowance, and approve or reject
imported bank transactions. Family members share reports and statistics. Two server routes
drain outboxes of pending emails and SMS notifications, and a third fills an email template
for a family invitation.

This project models the logic the pages and routes run on their own data. Every reply from the
hosted database, the authentication service or a delivery channel is a parameter: a success, an
error with its message, or the rows a query returns.

- The email outbox processor is `EmailQueue.EmailOutbox` (`email_queue.dfy`), a class over the
  table's rows. Its `Post` method selects due rows, counts an attempt, tries the primary channel
  and then the fallback one, settles each row, and reports one entry per row. A ghost trace of
  store writes and channel calls records their order. `GET` is a fold counting rows by status.
  `Post` runs the intended selection, `SelectBatch`. The query as the route writes it,
  `SelectAsWritten`, fails on every table (see Findings).
- The SMS outbox processor is `SmsQueue.SmsOutbox` (`sms_queue.dfy`). It sends each pending SMS
  once, and the first failure is final.
- The invitation email route is modelled in `invitation_email.dfy`: the validation ladder, the
  invitation link, and `{key}` substitution as a literal replace-all. The substitution loop is
  proved against a split-and-join reference.
- The budget, savings and dashboard figures are modelled in `budget.dfy`, `savings.dfy`,
  `allowance.dfy` and `dashboard.dfy`. They cover spending against limits, the four-way budget
  status, the daily allowance and its bounds, the on-track tests, goal progress and
  months-to-target. Amounts are exact reals.
- The reports and family statistics are modelled in `reports.dfy`, `family_stats.dfy`,
  `periods.dfy` and `tally.dfy`. They cover the period windows, totals and per-key sums, the CSV
  export, the running balance and the newest-first detail sort (an in-place sort on an array).
- The import approval page is `ImportQueue.ImportPage` (`import_queue.dfy`), a class holding
  the page's state, with its one-at-a-time loop.
- The form handlers are modelled in `add_transaction.dfy`, `categories.dfy`, `auth.dfy` and
  `profile.dfy`.
- `seqs.dfy`, `text.dfy`, `ledger.dfy` and `wrappers.dfy` hold the shared sequence operations,
  joining and splitting, the transaction ledger and the option and store-outcome types.

## Model

| member | source | states |
|---|---|---|
| Ledger.CategoriesOf | app/categories/page.tsx:185-186 | a category is listed under a type exactly when it is loaded with that type |
| Ledger.TotalsOf | app/reports/page.tsx:148-151 | income and expenses are the per-type totals and the balance is the sum of the signed amounts |
| Ledger.TotalOfAppend | app/reports/page.tsx:149-150 | per-type totals split over a concatenation |
| Ledger.TotalOfCons | app/reports/page.tsx:149-150 | a per-type total is the first transaction's amount when it has that type, plus the total of the rest |
| Ledger.BalanceIsSignedSum | app/reports/page.tsx:149-151 | income less expenses is the sum of the signed amounts |
| Ledger.TotalsPartition | app/reports/page.tsx:149-150 | income plus expenses is the sum of all amounts |
| Ledger.TypeLabel | app/reports/page.tsx:120 | the exported type column: `Доход` for income, `Расход` for anything else |
| Periods.MonthStart | app/reports/page.tsx:85-102 | the first day of the month that lies `month - 1` months after January of `year`, with whole years carried |
| Periods.LastDayBefore | app/reports/page.tsx:89 | `new Date(year, month, 0)`: the last day of the previous month |
| Periods.ReportWindow | app/reports/page.tsx:78-106 | every window starts on a first day and ends no earlier; last month spans one calendar month; last year is 1 January to 31 December of the previous year; every other window ends today; the current year starts on 1 January; three and six months back start on the first of that month; an unknown period is the current month |
| Periods.FamilyWindow | app/family/stats/page.tsx:101-122 | the four periods the family page knows give the reports page's window; every other period gives the current month |
| Periods.WindowsEndingTodayContainToday | app/reports/page.tsx:81-110 | every window ending today contains today |
| Periods.CurrentMonthWindow | app/reports/page.tsx:84-86 | a date is in the current-month window exactly when it is in today's month and not after today |
| Periods.LastMonthWindow | app/reports/page.tsx:87-90 | last month is the previous calendar month, December of last year in January |
| Seqs.Filter | app/reports/page.tsx:108-111 | `filter`: the result holds exactly the elements that satisfy the predicate, and is no longer than the input |
| Seqs.FilterAppend | app/reports/page.tsx:108-111 | filtering distributes over concatenation |
| Seqs.FilterCount | app/reports/page.tsx:149-150 | an element is kept as many times as it occurs when it satisfies the predicate, and never otherwise |
| Seqs.FilterFilter | app/page.tsx:272-279 | filtering twice is filtering once by both predicates |
| Seqs.DistinctAtMostOnce | app/api/send-sms/route.ts:29-34 | in a list without repeats every element occurs once |
| Seqs.RepeatedTwice | app/api/send-sms/route.ts:29-34 | a repeated element occurs at least twice |
| Seqs.DistinctSub | app/api/send-sms/route.ts:29-34 | a sub-multiset of a list without repeats has none either |
| Seqs.SumByAppend | app/reports/page.tsx:149-150 | the sum over a concatenation is the sum of the sums |
| Seqs.SumBySnoc | app/reports/page.tsx:149-150 | an element added at the end adds its value |
| Seqs.SumFilterSnoc | app/reports/page.tsx:149-150 | an element added at the end adds its value to the filtered sum only when it passes |
| Seqs.SumFilterOr | app/page.tsx:247-251 | the sum over elements passing either of two exclusive predicates is the sum of the two sums |
| Seqs.Tabulate | app/page.tsx:269-286 | the run of values at `first`, `first + 1`, ..., of the given length |
| Seqs.TabulateAt | app/page.tsx:269-286 | element `i` of the run is the value at `first + i` |
| Seqs.TabulateIsSeq | app/page.tsx:269-286 | the run equals the comprehension of the same values |
| Seqs.FilterNone | app/page.tsx:269-286 | a filter no element passes gives nothing |
| Seqs.SumTabulate | app/page.tsx:269-286 | the sum over consecutive days of the per-day filtered sums is the filtered sum over the whole range |
| Seqs.SumTabulateMap | app/page.tsx:269-286 | summing the per-day values of a run is summing the run's values |
| Seqs.Take | app/api/process-email-queue/route.ts:63 | `limit(n)`: the first n elements, or all of them when there are fewer |
| Seqs.SortedCons | app/api/process-email-queue/route.ts:62 | an element no larger than any of a sorted list keeps it sorted in front |
| Seqs.LowerBound | app/api/process-email-queue/route.ts:62 | the head of a sorted list bounds any rearrangement of its tail with a larger element added |
| Seqs.Insert | app/api/process-email-queue/route.ts:62 | insertion keeps a list sorted and adds exactly the element |
| Seqs.PrefixRest | app/api/process-email-queue/route.ts:63 | taking away a prefix leaves the rest |
| Seqs.SortedSplit | app/api/process-email-queue/route.ts:62-63 | nothing after a position of a sorted list has a smaller key than anything before it |
| Seqs.TakeSorted | app/api/process-email-queue/route.ts:62-63 | the first n of a sorted list are sorted, drawn from it, and no element left out has a smaller key |
| Seqs.SortBy | app/api/process-email-queue/route.ts:62 | `order(... ascending)`: sorted by the key and a permutation of the input |
| Seqs.SumByInsert | app/reports/page.tsx:204 | insertion adds exactly the element's value to the sum |
| Seqs.SumBySort | app/reports/page.tsx:204 | sorting keeps the sum |
| Text.Join | app/reports/page.tsx:126-127 | joining no parts gives the empty text and joining one part gives that part |
| Text.Split | app/reports/page.tsx:126-127 | splitting always gives at least one piece |
| Text.SplitPlain | app/reports/page.tsx:126-127 | a text without the separator splits into itself |
| Text.SplitAfter | app/reports/page.tsx:126-127 | a separator-free head, the separator and a rest split into the head and the rest's pieces |
| Text.SplitJoin | app/reports/page.tsx:126-127 | splitting undoes joining when no part holds the separator |
| Text.ConcatContains | app/transactions/add/page.tsx:100-106 | every piece of a template occurs in the text it builds |
| Tally.Keys | app/reports/page.tsx:154-164 | the keys of the buckets, in order |
| Tally.Add | app/reports/page.tsx:158 | `acc[k] = (acc[k] or 0) + v` keeps the keys and appends `k` only when it is new |
| Tally.AddTotal | app/reports/page.tsx:158 | one step adds `v` to the total |
| Tally.AddLookup | app/reports/page.tsx:158 | one step adds `v` to `k`'s value and to no other key's |
| Tally.LookupAbsent | app/reports/page.tsx:158 | a key without a bucket reads as 0 |
| Tally.AddUnique | app/reports/page.tsx:158 | one step never gives a key a second bucket |
| Tally.Accumulate | app/reports/page.tsx:155-163 | the reduce gives one bucket per key |
| Tally.AccumulateTotal | app/reports/page.tsx:155-163 | the buckets hold exactly the sum of all values |
| Tally.AccumulateLookup | app/reports/page.tsx:155-163 | a key's bucket holds the sum of the values of exactly the elements with that key |
| Tally.TotalIsSum | app/reports/page.tsx:155-163 | the total is the sum of the bucket values |
| Tally.AccumulateKeys | app/reports/page.tsx:155-163 | a key has a bucket exactly when some element carries it |
| Tally.BumpTotal | app/api/process-email-queue/route.ts:158 | counting one more status adds one to the total |
| Tally.BumpCount | app/api/process-email-queue/route.ts:158 | counting one more status adds one to that status only |
| Tally.StatusesCons | app/api/process-email-queue/route.ts:155-162 | the statuses of a list are its head's and its tail's |
| Tally.BumpStatuses | app/api/process-email-queue/route.ts:158 | counting a status adds it to the statuses present |
| Tally.UniqueCons | app/api/process-email-queue/route.ts:155-162 | a new status in front of counts without repeats keeps them without repeats |
| Tally.BumpUnique | app/api/process-email-queue/route.ts:158 | counting never gives a status a second entry |
| Tally.CountStatusesTotal | app/api/process-email-queue/route.ts:155-165 | the counts add up to the number of rows |
| Tally.CountStatusesExact | app/api/process-email-queue/route.ts:155-162 | each status's count is the number of rows with it |
| Tally.CountStatusesUnique | app/api/process-email-queue/route.ts:155-162 | no status is counted under two entries |
| Tally.Summarize | app/api/process-email-queue/route.ts:155-162 | one entry per status, each count exact, adding up to the number of rows |
| Dashboard.OnPace | app/page.tsx:192-194 | on track exactly when deposits times the days in the month reach the target times today's day, and the month's spending times the days in the month stays within the available budget times today's day |
| Dashboard.LoadSavingsStats | app/page.tsx:120-223 | an exception resets the card to zeros and on track; otherwise the deposits total, the number of active goals, today's expenses, the base limit, the remaining budget and the daily limit come from the shared allowance computation, with 0 <= daily limit <= base limit and a non-negative remaining budget, and the on-track flag is `OnPace` |
| Dashboard.GoalsTarget | app/page.tsx:156 | the sum of the active goals' monthly targets, 0 when the query gave no list |
| Dashboard.DepositsTotal | app/page.tsx:157 | the sum of the month's deposits, 0 when the query gave no list |
| Dashboard.DashboardAgreesWithSavingsPage | app/page.tsx:156-189 | fed the same month, goals, settings and deposits, the dashboard and the savings page show the same daily limit and the same deposits |
| Dashboard.SavingsPageStricterThanDashboard | app/page.tsx:191-194 | with a non-negative available budget, the savings page's "on track" implies the dashboard's |
| Dashboard.OnTrackImpliesOnPace | app/page.tsx:191-194 | for figures computed from the same target and budget on the same day, the page's verdict implies the card's |
| Dashboard.PageImpliesPace | app/page.tsx:191-194 | the page's on-track test, on the figures alone, implies the dashboard's |
| Dashboard.SpendingWithinPace | app/page.tsx:176-194 | spending within the daily limit for the days elapsed stays within the budget pro-rated to those days |
| Dashboard.BaseSpreadsAvailable | app/page.tsx:176 | with a non-negative budget, the base limit times the days in the month is the budget |
| Dashboard.OnTrackFacts | app/page.tsx:191-194 | the savings page's on-track test in multiplied form |
| Dashboard.PaceOf | app/page.tsx:192-194 | the two multiplied comparisons give the dashboard's test |
| Dashboard.PaceFromDailyLimit | app/page.tsx:176-194 | a daily limit below the base limit keeps spending within the pro-rated budget |
| Dashboard.MonthTotals | app/page.tsx:242-251 | income and expenses are the month's per-type totals and the balance is the month's signed sum |
| Dashboard.ExpensesByCategory | app/page.tsx:254-266 | the expense categories in list order, each with its month's spending, those without spending dropped; stated by `ExpensesByCategorySpec` and `ExpensesByCategorySnoc` |
| Dashboard.ExpensesByCategorySpec | app/page.tsx:254-266 | every slice has spending and belongs to an expense category; every expense category with spending has its slice |
| Dashboard.ExpensesByCategorySnoc | app/page.tsx:254-266 | the slices follow the categories' list order: a category added at the end adds its slice at the end, exactly when it is an expense category with spending, and leaves the earlier slices as they were |
| Dashboard.PointFor | app/page.tsx:272-285 | the point of a day stands for that day |
| Dashboard.PointsFrom | app/page.tsx:269-286 | one point per day of the run |
| Dashboard.DailyData | app/page.tsx:269-286 | thirty points |
| Dashboard.PointsFromDays | app/page.tsx:269-271 | the points stand for consecutive days from the first |
| Dashboard.DailyDataIsRun | app/page.tsx:269-286 | the chart is the run of points from 29 days ago to today |
| Dashboard.DailyDataDays | app/page.tsx:269-271 | the points stand for consecutive days, the last of them today |
| Dashboard.DaysThenKind | app/page.tsx:272-279 | filtering by days and then by type is filtering by type and then by days |
| Dashboard.PointAmountIsDaySum | app/page.tsx:272-279 | a point's bar of a type sums that day's transactions of that type |
| Dashboard.DailyDataTotals | app/page.tsx:269-286 | the 30 income bars add up to the income of the 30 days ending today, and likewise for expenses |
| Allowance.DaysInMonth | app/savings/page.tsx:151 | the length of the month: 28 to 31 days, 29 in February exactly in leap years, 31 exactly in the seven long months |
| Allowance.Defaulted | app/page.tsx:159-161 | a missing settings row, or a missing field, reads as zero |
| Allowance.Available | app/savings/page.tsx:178-182 | the available budget plus fixed expenses, the savings target and the buffer is the income target |
| Allowance.Compute | app/savings/page.tsx:185-194 | the base limit spreads the non-negative budget over the month; the remaining budget is never negative and is zero or the budget less spending; the daily limit lies between zero and the base limit, fits the remaining budget over the days left, and is one of the two limits |
| Allowance.LimitWithinMonth | app/savings/page.tsx:185-194 | the daily limit spent on every day of the month never exceeds the non-negative budget |
| Allowance.LimitBelowShare | app/savings/page.tsx:189-194 | a limit whose spread fits a smaller budget is no greater than the limit that spreads the larger one |
| Allowance.AllowanceKeepsMonthWithinPlan | app/savings/page.tsx:185-194 | while spending is within budget, spending the daily limit on each remaining day keeps the month within the budget |
| Allowance.MoreSpendingLowersLimit | app/savings/page.tsx:189-194 | spending more so far never raises today's limit |
| Allowance.LeftToday | app/savings/page.tsx:527 | what is left today is never negative, is at least the limit less today's spending, and is zero exactly when today's spending reached the limit |
| Savings.SavingsTarget | app/savings/page.tsx:176 | the sum of the monthly targets of the active goals |
| Savings.TotalSaved | app/savings/page.tsx:172-173 | the sum of the month's deposits, 0 when the query returned nothing; withdrawals are not subtracted |
| Savings.SpentToday | app/savings/page.tsx:197-199 | the sum of today's expenses, 0 when the query returned nothing |
| Savings.InactiveGoalAddsNothing | app/savings/page.tsx:176 | an inactive goal does not change the savings target |
| Savings.LoadSettings | app/savings/page.tsx:121-144 | the settings are replaced, each field defaulting to zero, only when a row was loaded |
| Savings.MonthlyStatsOf | app/savings/page.tsx:146-221 | the days remaining count today; income, expenses, deposits and today's spending are the month's totals; the active goals are counted; the daily limit and remaining budget are the shared allowance figures (limit non-negative, remaining budget non-negative and at least budget less spending); the on-track flag is `IsOnTrack` of these figures |
| Savings.IsOnTrack | app/savings/page.tsx:202-205 | on track exactly when spending is within the daily limit times the days elapsed and deposits times the month's length reach the target times the days elapsed |
| Savings.ReasonsAsWritten | app/savings/page.tsx:574-583 | the reasons as written, counting days against a 30-day month: none when on track, at most two |
| Savings.Reasons | app/savings/page.tsx:574-583 | the reasons with the month's own length: none when on track, at most two |
| Savings.ReasonsExplainDeviation | app/savings/page.tsx:574-583 | with the month's own length, a reason is listed exactly when the card reads off track, and each reason is exactly a failed half of the on-track test |
| Savings.AsWrittenHidesDeviation | app/savings/page.tsx:577-583 | on 1 February 2026 with 3 spent against a budget of 56, the card reads off track but the as-written tests list no reason, while the corrected tests list the overspending |
| Savings.GoalProgress | app/savings/page.tsx:594 | zero without a positive target; otherwise the percentage of the target reached: non-negative for a non-negative amount, and at least 100 exactly when the target is reached |
| Savings.ProgressFacts | app/savings/page.tsx:594 | the percentage times the target is the amount times 100, and it reaches 100 exactly when the amount reaches the target |
| Savings.Ceil | app/savings/page.tsx:596 | `Math.ceil`: the least integer not below the number |
| Savings.MonthsToTarget | app/savings/page.tsx:595-596 | zero without a positive monthly target |
| Savings.MonthsToTargetIsLeastCover | app/savings/page.tsx:595-596 | with a positive monthly target, the months shown are the fewest whose contributions cover the gap, and a reached goal shows none |
| Budget.HasBudget | app/budget/page.tsx:81 | a category is budgeted when its limit is set and positive |
| Budget.Spent | app/budget/page.tsx:83-84 | the month's expenses recorded under the category's name, 0 when the query returned nothing |
| Budget.RowFor | app/budget/page.tsx:82-96 | a budgeted category's row: its name and positive limit, the month's spending in it, the limit less the spending, and the percentage with percentage times limit equal to spending times 100 |
| Budget.BudgetRows | app/budget/page.tsx:80-97 | one row per category with a positive limit, in list order |
| Budget.BudgetRowsSpec | app/budget/page.tsx:80-97 | every category with a positive limit has its row and every row comes from one; every row's limit is positive and its remaining amount is negative exactly when spending passed the limit |
| Budget.Progress | app/budget/page.tsx:254 | the bar value is at most 100 and is either 100 or the percentage |
| Budget.ProgressFullIffLimitReached | app/budget/page.tsx:254 | a budgeted row's bar is full exactly when spending reached the limit, and is non-negative for non-negative spending |
| Budget.PercentageSign | app/budget/page.tsx:88 | the percentage lies on the same side of t as the spending does of t percent of the limit |
| Budget.StatusOf | app/budget/page.tsx:145-157 | exceeded exactly above the limit, at the limit exactly on it, near it exactly from 80% up to it, normal otherwise |
| Budget.StatusByPercentage | app/budget/page.tsx:145-157 | for a budgeted row the status follows the percentage: above 100, exactly 100, from 80 below 100, below 80 |
| Budget.TotalRemainingIsSumOfRows | app/budget/page.tsx:159-161 | the page's remaining total is the sum of the rows' remaining amounts |
| Budget.TotalRemaining | app/budget/page.tsx:159-161 | the total budget less the total spent; `TotalRemainingIsSumOfRows` ties it to the rows |
| Budget.RowsRemainingSum | app/budget/page.tsx:159-161 | for rows whose remaining amount is limit less spending, total limits less total spending is the sum of the remaining amounts |
| Budget.SetBudget | app/budget/page.tsx:102-138 | a missing or non-positive amount is refused first, then a missing category; otherwise the limit is written for the category being edited, and the store's error is shown when it refuses |
| Budget.ApplyLimit | app/budget/page.tsx:123-126 | the update by id sets that category's limit and leaves every other category unchanged |
| Budget.SavedCategoryGetsRow | app/budget/page.tsx:123-134 | after a saved budget the category gets a row with the new limit |
| Reports.Filtered | app/reports/page.tsx:108-111 | a transaction is kept exactly when it is loaded and its date lies in the period's window |
| Reports.FilteredKeepsOrder | app/reports/page.tsx:108-111 | filtering keeps the loaded order: a concatenation filters part by part, a transaction dated in the window is kept as often as it occurs, and one outside it is dropped |
| Reports.UnknownPeriodIsCurrentMonth | app/reports/page.tsx:104-105 | a period the selector does not know reports the same transactions as the current month |
| Reports.CsvRow | app/reports/page.tsx:118-124 | five fields: the date, the type label, the category, the description and the amount |
| Reports.CsvRows | app/reports/page.tsx:116-125 | the header, then one row per filtered transaction, in order |
| Reports.Csv | app/reports/page.tsx:114-127 | the file text: each row's fields joined by commas, the rows joined by newlines, nothing quoted; `CsvReadsBack` states that it reads back |
| Reports.Lines | app/reports/page.tsx:126 | each row becomes its fields joined by commas |
| Reports.JoinAvoids | app/reports/page.tsx:126-127 | a character that is in no part and is not the separator is not in the join |
| Reports.CsvReadsBack | app/reports/page.tsx:114-127 | when no field holds a comma or a newline, splitting the file by newlines and then by commas gives back the header and every row |
| Reports.CommaInDescriptionShiftsAmount | app/reports/page.tsx:118-126 | nothing is quoted: a description `a,b` reads back as six fields and the fifth field is not the amount |
| Reports.JoinSamePrefix | app/reports/page.tsx:126 | parts with equal joins stay equal behind a common prefix |
| Reports.CategoryData | app/reports/page.tsx:154-164 | no category is charted twice |
| Reports.CategoryDataTotal | app/reports/page.tsx:149-164 | the category values add up to the period's expense total |
| Reports.CategoryDataValue | app/reports/page.tsx:155-160 | each category's value is the sum of exactly the expenses carrying it; income never counts |
| Reports.CategoryDataNames | app/reports/page.tsx:155-160 | a category is charted exactly when some filtered expense carries it |
| Reports.Months | app/reports/page.tsx:183 | the months of the entries, in order |
| Reports.MonthlyOf | app/reports/page.tsx:167-182 | the month reducer over the transactions in order; its contents are stated by `MonthlyUnique`, `MonthlyTotals` and `MonthlyMonths` |
| Reports.AddToMonth | app/reports/page.tsx:169-179 | one reducer step adds the transaction's month at the end when it is new and keeps the months otherwise |
| Reports.MonthlyData | app/reports/page.tsx:167-183 | the loop's entries are the reducer's fold over the filtered transactions |
| Reports.AbsentMonth | app/reports/page.tsx:171-172 | a month without an entry has zero income and zero expenses |
| Reports.AddToMonthLookup | app/reports/page.tsx:171-178 | one step adds the amount to its month, to income for income and to expenses otherwise, and changes no other month |
| Reports.AddToMonthUnique | app/reports/page.tsx:171-173 | one step never gives a month a second entry |
| Reports.MonthlyUnique | app/reports/page.tsx:167-183 | no month has two entries |
| Reports.MonthlyTotals | app/reports/page.tsx:167-183 | each month's income and expenses are the totals of exactly the transactions dated in that month |
| Reports.InMonthSnoc | app/reports/page.tsx:174-178 | a transaction added at the end adds its amount to its own month's total of its type |
| Reports.OneInMonth | app/reports/page.tsx:174-178 | one transaction counts for its month only, as income or as expense |
| Reports.MonthlyMonths | app/reports/page.tsx:167-183 | a month has an entry exactly when some filtered transaction is dated in it |
| Reports.MonthInSnoc | app/reports/page.tsx:167-183 | a month occurs in a non-empty list exactly when it occurs in all but the last row or in the last row |
| Reports.DailyTrend | app/reports/page.tsx:186-204 | the day entries are the signed per-day sums, sorted by day, earliest first |
| Reports.Cumulative | app/reports/page.tsx:207-211 | one point per day entry with its date and net, and each point's running balance is the sum of the nets up to it |
| Reports.TrendSumsToBalance | app/reports/page.tsx:151-204 | the day entries together hold the period's balance |
| Reports.CumulativeData | app/reports/page.tsx:186-211 | one point per day with transactions, and the last point's running balance is the period's balance |
| Reports.TrendDays | app/reports/page.tsx:186-202 | a day has an entry exactly when some filtered transaction is dated that day |
| Reports.Swap | app/reports/page.tsx:396-398 | the two cells are exchanged and nothing else changes |
| Reports.SwapKeepsTies | app/reports/page.tsx:396-398 | exchanging two neighbours with different times leaves every group of equal-time transactions in its order |
| Reports.SinkStep | app/reports/page.tsx:396-398 | moving the entry being placed below a strictly older neighbour keeps the pass's order, the multiset and every group of ties |
| Reports.SinkInto | app/reports/page.tsx:396-398 | one insertion pass extends the newest-first prefix by one entry, keeps the same transactions and keeps ties in order |
| Reports.SortNewestFirst | app/reports/page.tsx:396-398 | the table ends up newest first by creation time, or by date when there is none; it is a permutation of the original; and transactions with the same time keep their original relative order, as the stable `Array.prototype.sort` keeps them |
| Reports.SortTime | app/reports/page.tsx:398 | the sort key: the creation time when there is one, otherwise midnight UTC of the transaction date, in milliseconds |
| FamilyStats.Filtered | app/family/stats/page.tsx:124-133 | a transaction is shown exactly when its date lies in the period's window and, unless "all" is selected, the selected member recorded it |
| FamilyStats.AllMembersIsReportFilter | app/family/stats/page.tsx:101-133 | with "all" members and a period both pages know, the page shows what the reports page shows |
| FamilyStats.OtherPeriodsAreCurrentMonth | app/family/stats/page.tsx:120-121 | "last-year", "last-6-months" and unknown periods show the current month |
| FamilyStats.MemberRowOf | app/family/stats/page.tsx:150-161 | a member's row: the display name, the income and expenses of that member's transactions, their difference, and their number |
| FamilyStats.MemberStats | app/family/stats/page.tsx:150-162 | one row per family member, in the family's order |
| FamilyStats.MemberRowCounts | app/family/stats/page.tsx:151 | a member's transactions are exactly the filtered ones that member recorded, each as often as it occurs |
| FamilyStats.OthersAreEmpty | app/family/stats/page.tsx:129-161 | with one member selected, every other member's row is empty |
| FamilyStats.SelectedIsEverything | app/family/stats/page.tsx:129-161 | the selected member's row holds the page totals and counts every shown transaction |
| FamilyStats.CategoryDataTotal | app/family/stats/page.tsx:145-175 | the category values add up to the page's expense total |
| ImportQueue.Step | app/import/page.tsx:63-107 | one `processTransaction` on the page's state with the store's replies; the method `ImportPage.ProcessTransaction` is proved to equal it and the lemmas below state its cases |
| ImportQueue.Run | app/import/page.tsx:113-115 | the imports handled one after another in list order, each with its own replies |
| ImportQueue.ToTransaction | app/import/page.tsx:74-83 | the inserted row carries the import's amount, type, description and date, its suggested category, and the signed-in user's id |
| ImportQueue.ImportPage.constructor | app/import/page.tsx:51-61 | the page starts with the loaded imports listed, nothing inserted or marked, no messages and not busy |
| ImportQueue.ImportPage.ProcessTransaction | app/import/page.tsx:63-107 | the page and store after one approval or rejection are exactly `Step` of the state before, under the store's replies |
| ImportQueue.ImportPage.ProcessAll | app/import/page.tsx:109-119 | every import listed at the start is processed in list order with its own replies, then the all-done message is shown and the busy flag falls |
| ImportQueue.RejectNeverInserts | app/import/page.tsx:67-90 | a rejection never inserts a transaction |
| ImportQueue.ApproveInserts | app/import/page.tsx:67-90 | an approval with a user and a successful insert adds exactly the mapped transaction |
| ImportQueue.InsertFailureKeepsItem | app/import/page.tsx:85-89 | a failed insert shows its message, clears the busy flag and leaves the list, the marks and the inserts unchanged |
| ImportQueue.MarkFailureKeepsItem | app/import/page.tsx:93-99 | a failed mark-processed update shows its message and leaves the list and the marks unchanged |
| ImportQueue.NoUserLeavesPageBusy | app/import/page.tsx:69-72 | without a signed-in user an approval only clears the error and leaves the page busy |
| ImportQueue.MarkedIsRemoved | app/import/page.tsx:100-104 | after a successful update no listed import has that id, the id is marked, and every other import keeps its count |
| ImportQueue.RemovalKeepsOrder | app/import/page.tsx:103 | removing an id from a concatenation removes it from each part, so the rest keep their order |
| ImportQueue.Inserts | app/import/page.tsx:113-115 | a fully successful approval run inserts one mapped transaction per import, position by position |
| ImportQueue.Ids | app/import/page.tsx:93-96 | the ids of a list, position by position |
| ImportQueue.Snoc | app/import/page.tsx:113-115 | the inserts and ids of a list are those of all but its last import followed by the last one's |
| ImportQueue.ApproveAllInOrder | app/import/page.tsx:109-119 | when every reply succeeds, approving all inserts and marks the imports in list order |
| ImportQueue.RejectAllNeverInserts | app/import/page.tsx:109-119 | rejecting all never inserts, whatever the store replies |
| ImportQueue.SuccessfulRunEmptiesList | app/import/page.tsx:109-119 | when every reply succeeds, no import of the run is left listed |
| ImportQueue.LastErrorWins | app/import/page.tsx:64-65 | each import clears the error, so a run whose last import goes through ends with no error shown |
| AddTransaction.Complete | app/transactions/add/page.tsx:67 | the form passes when the amount is a number other than zero and the category, description and date are non-empty |
| AddTransaction.Notification | app/transactions/add/page.tsx:100-106 | the notification text: the heading, then the amount, type label, category, description and date, one per line |
| AddTransaction.ErrorText | app/transactions/add/page.tsx:67-96 | the error line after a submission: the fill-all-fields or not-signed-in message, the insert's message, or nothing after a success |
| AddTransaction.NotificationMentions | app/transactions/add/page.tsx:100-106 | the notification text names the amount, the type in words, the category, the description and the date |
| AddTransaction.HandleSubmit | app/transactions/add/page.tsx:55-126 | a submission is refused exactly when a field is missing, stops exactly when no user is signed in, and otherwise inserts the form's row with the toggle's type; a failed insert shows its message and a successful one builds the notification |
| AddTransaction.ZeroOrNaNRefused | app/transactions/add/page.tsx:62-71 | an amount of zero or one that is not a number is refused with the fill-all-fields message, whatever else the form holds |
| AddTransaction.ChoicesFollowToggle | app/transactions/add/page.tsx:128 | the category choices are the loaded categories of the selected type: none is offered under both types and each is offered under its own |
| Categories.HandleSubmit | app/categories/page.tsx:68-122 | a save is refused exactly when the name or the type is missing, stops exactly when no user is signed in, and otherwise sends an update of the edited category's id or an insert owned by the user, carrying the form's name and type |
| Categories.ErrorText | app/categories/page.tsx:78-118 | the error line after a save: the fill-all-fields or not-signed-in message, the store's message, or nothing after a success |
| Categories.SuccessText | app/categories/page.tsx:100-118 | a confirmation is shown exactly when the write went through |
| Categories.ErrorOrSuccess | app/categories/page.tsx:78-118 | every save ends with either an error or a confirmation, never both |
| Categories.DefaultsFor | app/categories/page.tsx:150-183 | nothing is written without a user; otherwise one insert of the eleven default categories, tagged with the user, seven expense ones before four income ones |
| Categories.PresetNamesDistinct | app/categories/page.tsx:156-170 | no two default categories share a name |
| Categories.OffersDefaults | app/categories/page.tsx:204 | the add-defaults button is shown only while the loaded list is empty |
| Categories.OffersDefaultsWhenBothListsEmpty | app/categories/page.tsx:185-204 | the add-defaults button is shown exactly when both the income and the expense list are empty |
| Categories.PartitionByType | app/categories/page.tsx:185-186 | the income and expense lists together hold every loaded category exactly as often as it was loaded |
| Categories.PartitionKeepsOrder | app/categories/page.tsx:185-186 | each list keeps the loaded order: the lists of a concatenation are the concatenated lists |
| Auth.ReadParams | app/auth/page.tsx:26-37 | the invitation token and address are replaced only by query parameters that are present and non-empty |
| Auth.SignUp | app/auth/page.tsx:39-81 | the service is called exactly when the passwords match and no other invitation address is pending; each refusal shows its message, a service error shows its message, and a success sends an invited user to the invitation and asks anyone else to confirm by mail |
| Auth.SignIn | app/auth/page.tsx:83-115 | the service is called exactly when no other invitation address is pending; a service error shows its message, and a success goes to the invitation of the held token or to the home page |
| Auth.MismatchFirst | app/auth/page.tsx:50-61 | a password mismatch is reported before the invitation address is compared, and nothing is called |
| Auth.InvitedEmailOnly | app/auth/page.tsx:57-61 | with an invitation address held, both handlers reach the service only with that address |
| Auth.RedirectTargets | app/auth/page.tsx:71-112 | sign-up navigates only to the held token's invitation; sign-in navigates there or, without a token, to the home page |
| Auth.InvitePath | app/auth/page.tsx:73 | the invitation page of a token, `/invite/` followed by the token |
| Auth.WrongEmail | app/auth/page.tsx:56 | an address is refused exactly when an invitation address is held and the two differ |
| Profile.With | app/profile/page.tsx:144 | the named setting takes the new value; every other setting and the identity fields are kept |
| Profile.NewProfile | app/profile/page.tsx:75-83 | a missing profile is created with the user's id, the account address or an empty one, no name or phone, and every notification on except SMS and transaction alerts |
| Profile.LoadProfile | app/profile/page.tsx:59-90 | a load fails exactly on an error other than "no rows"; a stored row is used; otherwise a new profile is sent exactly when an account is signed in, and the page keeps the row the store returns |
| Profile.AfterLoad | app/profile/page.tsx:59-90 | the page after a load: the load error shown on failure, the found or created profile kept otherwise, nothing changed when none was created |
| Profile.NoRowsIsNotAnError | app/profile/page.tsx:62-65 | the "no rows" reply never shows the load error |
| Profile.UpdateProfile | app/profile/page.tsx:92-125 | without a loaded profile the save is refused with its message; otherwise a successful write keeps the name and phone locally and confirms, and a failed one shows its message |
| Profile.UpdateSetting | app/profile/page.tsx:127-149 | without a profile nothing changes; otherwise a successful write applies the toggle locally and confirms, and a failed one shows its message and keeps the profile |
| Profile.ToggleChangesOnlyThatSetting | app/profile/page.tsx:141-146 | a toggle changes only the named setting, and only after the store accepts it |
| Profile.ChangePassword | app/profile/page.tsx:151-185 | the service is asked exactly when both passwords match and have at least six characters; the mismatch and the short password each show their message, and a service reply shows its error or the confirmation |
| Profile.MismatchBeforeLength | app/profile/page.tsx:161-171 | two different short passwords report the mismatch, not the length |
| EmailQueue.SelectBatch | app/api/process-email-queue/route.ts:56-63 | the intended selection: the eligible rows (pending, attempts below their own ceiling, due by now) sorted by `created_at` ascending, then the first ten; its properties are stated by `SelectBatchSpec` |
| EmailQueue.SelectBatchSpec | app/api/process-email-queue/route.ts:56-63 | the batch holds min(10, eligible) rows, each pending, below its attempt ceiling and due, drawn from the table; it is sorted by `created_at` and no eligible row left out is older than one taken |
| EmailQueue.SettledRowsNotSelected | app/api/process-email-queue/route.ts:59 | a `sent` or `failed` row is never selected |
| EmailQueue.SelectBatchDistinct | app/api/process-email-queue/route.ts:56-63 | with unique ids the batch never holds one row twice |
| EmailQueue.SelectAsWritten | app/api/process-email-queue/route.ts:56-63 | the selection as the handler builds it: the pending filter, then `attempts` compared with the literal text `max_attempts`, whose failure fails the whole query, then the due filter, the order and the limit |
| EmailQueue.SelectAsWrittenAlwaysFails | app/api/process-email-queue/route.ts:60 | the attempts filter compares with the text `max_attempts`, which no integer column accepts, so the query always fails |
| EmailQueue.AsWrittenMissesDueRow | app/api/process-email-queue/route.ts:56-68 | for a table holding one due pending row, the query as written answers with an error while the intended selection returns that row |
| EmailQueue.UpdateById | app/api/process-email-queue/route.ts:79-82 | an update by id changes exactly the rows with that id, keeps the length and keeps every id |
| EmailQueue.Settled | app/api/process-email-queue/route.ts:76-130 | one attempt is counted; delivery through either channel gives `sent` with `sent_at`; a double failure gives `failed` at the ceiling and `pending` below it, with the error message; no other column changes |
| EmailQueue.Deliver | app/api/process-email-queue/route.ts:86-93 | the primary channel's outcome when it delivers, otherwise the fallback channel's outcome; `FallbackOnlyAfterPrimaryFailure` states when the fallback is called |
| EmailQueue.StatusAfterFailure | app/api/process-email-queue/route.ts:114 | after both channels fail, `failed` when the incremented attempt count reaches the maximum, `pending` otherwise |
| EmailQueue.SettledWellFormed | app/api/process-email-queue/route.ts:114 | attempting an eligible row keeps it well formed: attempts never pass `max_attempts` and a row is `failed` only at the ceiling |
| EmailQueue.ProcessRows | app/api/process-email-queue/route.ts:76-131 | handling a batch keeps the table's length and ids |
| EmailQueue.StepAt | app/api/process-email-queue/route.ts:79-122 | the two writes for one more row settle that row and leave every other row of the table as it was |
| EmailQueue.ProcessRowsEffect | app/api/process-email-queue/route.ts:76-131 | after the loop each batch row is settled and every other row is unchanged |
| EmailQueue.Report | app/api/process-email-queue/route.ts:104-129 | `results` has one entry per fetched row, in order, with its id and address |
| EmailQueue.BatchKeepsRowsWellFormed | app/api/process-email-queue/route.ts:56-131 | one POST keeps every row of the table well formed |
| EmailQueue.RowTraceShape | app/api/process-email-queue/route.ts:79-122 | one row's events: the attempt write, the primary call, the fallback call only after a primary failure, then the final write |
| EmailQueue.AttemptCountedBeforeDelivery | app/api/process-email-queue/route.ts:76-93 | every channel call of a batch comes after the write that counts that row's attempt |
| EmailQueue.FallbackOnlyAfterPrimaryFailure | app/api/process-email-queue/route.ts:86-93 | the fallback channel is called for a row exactly when the primary channel failed for it |
| EmailQueue.BatchStep | app/api/process-email-queue/route.ts:76-131 | one more row of the batch extends the table fold, the event trace and the report by that row's part |
| EmailQueue.LoopStep | app/api/process-email-queue/route.ts:76-131 | one loop turn keeps the loop's invariant: the table and the trace equal the fold over the rows handled so far |
| EmailQueue.IdsKept | app/api/process-email-queue/route.ts:79-122 | updates that keep every row's id keep the ids unique |
| EmailQueue.EmailOutbox.constructor | app/api/process-email-queue/route.ts:51-53 | the outbox starts with the given table and an empty trace |
| EmailQueue.EmailOutbox.Post | app/api/process-email-queue/route.ts:51-142 | with the intended selection `SelectBatch` in place of the query as written (which fails on every table, see `SelectAsWrittenAlwaysFails`): a failed select gives a 500 and changes nothing; an empty batch gives "No pending emails"; otherwise every selected row is processed and `processed` is the batch size |
| EmailQueue.EmailOutbox.RunBatch | app/api/process-email-queue/route.ts:74-137 | the loop leaves the table and trace equal to the fold over the batch and answers with the report |
| EmailQueue.EmailOutbox.Attempt | app/api/process-email-queue/route.ts:77-130 | one row: the attempt write, then the final write, the events they produce, and the row's entry |
| EmailQueue.StatusColumn | app/api/process-email-queue/route.ts:149 | the selected column holds each row's status, in order |
| EmailQueue.GetStats | app/api/process-email-queue/route.ts:145-172 | a read error gives a 500; otherwise `total` is the row count, each status appears once and its count is the number of rows holding it, and the counts add up to `total` |
| SmsQueue.SelectBatch | app/api/send-sms/route.ts:29-34 | the first ten pending SMS rows in table order; its properties are stated by `SelectBatchSpec` |
| SmsQueue.SelectBatchSpec | app/api/send-sms/route.ts:29-34 | at most ten rows, only pending SMS rows of the table, each at most once; a pending SMS row is left out only when the batch is full |
| SmsQueue.UpdateById | app/api/send-sms/route.ts:53-59 | an update by id changes exactly the rows with that id, keeps the length and keeps every id |
| SmsQueue.Settle | app/api/send-sms/route.ts:47-83 | an accepted send gives `sent` with `sent_at`; a rejected one gives `failed` with the error; no other column changes |
| SmsQueue.PatchFor | app/api/send-sms/route.ts:50-75 | the update for a row: `sent` with `sent_at` when the gateway accepts it, `failed` with the error message when it rejects it |
| SmsQueue.SendRows | app/api/send-sms/route.ts:47-84 | handling a batch keeps the table's length and ids |
| SmsQueue.Report | app/api/send-sms/route.ts:61-82 | `results` has one entry per fetched row, in order, with its id and phone |
| SmsQueue.StepAt | app/api/send-sms/route.ts:53-75 | the write for one more row settles that row and leaves every other row of the table as it was |
| SmsQueue.SendRowsEffect | app/api/send-sms/route.ts:47-84 | after the loop each batch row is sent or failed as its send went, and every other row is unchanged |
| SmsQueue.NoRetry | app/api/send-sms/route.ts:68-75 | there is no retry: after one POST no batch row is pending, so none is selected again |
| SmsQueue.BatchStep | app/api/send-sms/route.ts:47-84 | one more row extends the table fold and the report by that row's part |
| SmsQueue.SendRowsUnique | app/api/send-sms/route.ts:53-75 | sending keeps the row ids unique |
| SmsQueue.SmsOutbox.constructor | app/api/send-sms/route.ts:24-26 | the outbox starts with the given table |
| SmsQueue.SmsOutbox.Post | app/api/send-sms/route.ts:24-95 | a failed select gives a 500 and changes nothing; an empty batch gives "No pending SMS notifications"; otherwise the batch is sent and `processed` is its size |
| SmsQueue.SmsOutbox.SendBatch | app/api/send-sms/route.ts:45-84 | the loop leaves the table equal to the fold over the batch and returns the report |
| SmsQueue.StatusColumn | app/api/send-sms/route.ts:102-105 | the selected column holds each row's status, in order |
| SmsQueue.GetStats | app/api/send-sms/route.ts:98-128 | a read error gives a 500; otherwise the counts are over the SMS rows only; each status is counted under one entry only |
| SmsQueue.OtherTypesNotCounted | app/api/send-sms/route.ts:105 | adding a row of another notification type leaves the SMS statistics unchanged |
| InvitationEmail.ReplaceAll | app/api/send-invitation-email/route.ts:84-87 | `replace` with a global pattern: every non-overlapping occurrence, found left to right, becomes the value; its meaning is stated by `ReplaceAllIsJoin`, `ReplaceByItself` and `NoOccurrenceUnchanged` |
| InvitationEmail.Split | app/api/send-invitation-email/route.ts:84 | the pieces between the occurrences a global replace meets; there is always at least one piece |
| InvitationEmail.JoinConsChar | app/api/send-invitation-email/route.ts:84 | a character added to the first piece is added in front of the joined text |
| InvitationEmail.ReplaceAllIsJoin | app/api/send-invitation-email/route.ts:84 | a global replace is the split at the occurrences joined with the new value |
| InvitationEmail.ReplaceByItself | app/api/send-invitation-email/route.ts:84 | replacing a pattern by itself changes nothing |
| InvitationEmail.SplitJoin | app/api/send-invitation-email/route.ts:84 | the pieces joined with the pattern give back the original text |
| InvitationEmail.SplitHeadIsPrefix | app/api/send-invitation-email/route.ts:84 | the first piece is a prefix of the text |
| InvitationEmail.ContainsShift | app/api/send-invitation-email/route.ts:84 | an occurrence stays an occurrence when a character is put in front |
| InvitationEmail.ContainsPrefix | app/api/send-invitation-email/route.ts:84 | an occurrence in a prefix is an occurrence in the text |
| InvitationEmail.SplitPartsFree | app/api/send-invitation-email/route.ts:84 | no piece contains the pattern: every occurrence the scan meets is replaced |
| InvitationEmail.HeadFree | app/api/send-invitation-email/route.ts:84 | a piece that starts where no occurrence starts and continues with a free prefix of the rest is free of the pattern |
| InvitationEmail.NoOccurrenceUnchanged | app/api/send-invitation-email/route.ts:84 | a text without the pattern comes back unchanged |
| InvitationEmail.Placeholder | app/api/send-invitation-email/route.ts:83 | `{key}` is two characters longer than the key and starts with `{` |
| InvitationEmail.NoPlaceholderUnchanged | app/api/send-invitation-email/route.ts:81-89 | a template in which none of the variables' `{key}` placeholders occurs comes back unchanged, whatever other braces (CSS rules, a stray `{`) it holds |
| InvitationEmail.NoBraceUnchanged | app/api/send-invitation-email/route.ts:81-89 | the special case of a template without any `{`: no placeholder can occur, so it comes back unchanged |
| InvitationEmail.BaseUrl | app/api/send-invitation-email/route.ts:65 | the configured address when it is set and non-empty, `http://localhost:3000` otherwise |
| InvitationEmail.InvitationUrl | app/api/send-invitation-email/route.ts:66 | the base address, then `/invite/`, then the token; `InvitationUrlShape` states its shape |
| InvitationEmail.InvitationUrlShape | app/api/send-invitation-email/route.ts:66 | the link starts with the base address, ends with the token, and is eight characters longer than the two |
| InvitationEmail.Variables | app/api/send-invitation-email/route.ts:69-75 | exactly five variables, in the handler's order |
| InvitationEmail.LaterPlaceholderInValueIsFilled | app/api/send-invitation-email/route.ts:82-89 | because the variables are applied in turn, a family named `{app_url}` ends up as the base address in the email |
| InvitationEmail.ShorterThanPlaceholder | app/api/send-invitation-email/route.ts:82-89 | a text shorter than the next placeholder is left alone by that variable |
| InvitationEmail.ReplaceByItselfValue | app/api/send-invitation-email/route.ts:84 | a text that is exactly the pattern becomes the value |
| InvitationEmail.Single | app/api/send-invitation-email/route.ts:46 | `.single()` gives the row exactly when there is one row |
| InvitationEmail.Substituted | app/api/send-invitation-email/route.ts:82-89 | the template after replacing the placeholders of the variables one variable after the other, in the variables' order |
| InvitationEmail.SubstitutedText | app/api/send-invitation-email/route.ts:86-88 | the text content is substituted only when present and non-empty, and is otherwise passed on as it is |
| InvitationEmail.Compose | app/api/send-invitation-email/route.ts:64-93 | the email handed to the mail service: to the invitee, with subject, HTML and text substituted from the five variables built from the invitation, its link and the base address |
| InvitationEmail.FoundInvitation | app/api/send-invitation-email/route.ts:36-46 | the invitation lookup: the one pending row with that id and both joins, or none |
| InvitationEmail.FoundTemplate | app/api/send-invitation-email/route.ts:52-58 | the template lookup: the one active `family_invitation` template, or none |
| InvitationEmail.SubstitutedStep | app/api/send-invitation-email/route.ts:82-89 | one more variable is one more global replace of its placeholder |
| InvitationEmail.Substitute | app/api/send-invitation-email/route.ts:77-89 | the loop leaves subject and HTML substituted with every variable, and the text substituted only when it is present and non-empty |
| InvitationEmail.SendInvitation | app/api/send-invitation-email/route.ts:26-110 | each response exactly on its rung of the ladder: 400 exactly when the id is missing or empty; 404 exactly when the id is given and the lookup fails or finds no single pending invitation with both joins; 500 "template not found" exactly when the invitation is found and the template lookup fails or finds no single active template; otherwise the composed email is handed to the mail service, and the reply is success with the link and the service's receipt when it accepts it, and 500 with the service's message when it refuses |

## Left out

- Rendering, dialogs, tabs, charts, clipboard, loading and saving flags, router navigation and the `setTimeout` redirect delays are UI and are not modelled. Where a handler navigates, the model records the target path.
- Every call to the hosted database, the authentication service, the mail and SMS services and the Telegram route is replaced by its reply, passed in as a parameter. Row-level security and the remote procedures are not visible.
- The random delivery outcomes in the three routes (`Math.random`) are modelled as functions from the row to its outcome, supplied by the caller.
- The outer `try`/`catch` of each route, which answers 500 on an unexpected exception, is not modelled. Neither is `console` logging.
- The outbox loops ignore the result of each row update. The model assumes every update applies.
- A single instant `now` stands for every `new Date()` of one outbox run. The source reads the clock again for the due filter and for each row's `sent_at`.
- Two outbox invocations overlapping in time are not modelled; there is no locking in the source.
- EmailQueue.EmailOutbox keeps the table as a sequence of rows in table order, with unique ids, instead of a map keyed by id. The selection's tie-breaking on equal `created_at` follows table order.
- SMS rows are selected in table order, because the query gives no ordering. The order the database would actually return is not modelled.
- JavaScript numbers are modelled as exact reals, so IEEE-754 rounding, `Infinity` and `NaN` are left out. The exceptions are the `NaN` of `parseFloat`, modelled as `None`, and the zero divisor in `Savings.ReasonsAsWritten`.
- `toLocaleString`, `toFixed` and `toLocaleDateString` formatting are left out. The CSV export takes its date and amount renderings as parameters.
- Today's date, the month's length and the current instant are parameters. Time zones, and the difference between a date string parsed as UTC midnight and a window bound at local midnight, are not modelled.
- Periods.ReportWindow: a window ends on today's date, not at the current instant. The start of a window is a date, not a local-midnight instant.
- The month queries of the budget page (app/budget/page.tsx:77-78), the savings page (app/savings/page.tsx:158-166) and the dashboard (app/page.tsx:153-154) are not modelled, including the `-13-01` end bound they build in December. The pages receive the queries' rows as parameters.
- The savings page loads goals and settings with `Promise.all` and then reads them from state in the same call, which can see stale values. The model passes the loaded values in explicitly.
- Reports.DailyTrend sorts the day entries by calendar day. The source sorts them by parsing their `ru-RU` labels (`dd.mm.yyyy`), which JavaScript reads month-first or as an invalid date (compared as equal), depending on the day, so the order the page actually shows is not modelled.
- The month chart labels months with `toLocaleDateString`; the model keys months by year and month.
- Tally.Accumulate and Reports.CategoryData list keys in order of first appearance, as JavaScript does for ordinary string keys. Integer-like keys such as a category named `2024`, which `Object.entries` lists first in numeric order, and keys inherited from `Object.prototype` such as `constructor`, whose starting value is a function rather than 0, are not modelled. The same holds for the dashboard's and the family page's category charts.
- The dashboard's 30-day chart points carry the day number, not the displayed day-of-month label.
- InvitationEmail.ReplaceAll treats the pattern and the value literally. The special `$` patterns of `String.prototype.replace`, and regular-expression characters in keys, are not modelled; none of the fixed keys holds one.
- Profile.ChangePassword counts a password's length in characters of the model's strings. JavaScript counts UTF-16 code units, which differ for characters outside the Basic Multilingual Plane.
- Dashboard.LoadSavingsStats states its daily limit and remaining budget by equality with `Allowance.Compute`. Their bounds are proved about `Compute`, not repeated in its own contract.
- Savings.MonthlyStatsOf does not state the whole-month bound on the daily limit itself. `Allowance.LimitWithinMonth` proves it.
- The add-transaction handler's profile lookup and the call to the Telegram route are left out. The model builds the notification text the handler sends.
- The categories page's `handleDelete`, `openEditDialog` and `openCreateDialog`, the dialog state reset and the list reload after a save are not modelled. They are a single store call or UI state.
- The sign-in page's `handleResetPassword` is not modelled. It is a single call to the authentication service.
- `app/api/sendTelegramMessage/route.ts`, `app/api/create-invitation/route.ts`, the family, notifications and email-queue admin pages are not part of this model. They forward to a remote service or map a status to a badge.

## Findings

| source | as written | input that shows it | evidently intended | confidence | as-written member | corrected member |
|---|---|---|---|---|---|---|
| app/api/process-email-queue/route.ts:60 | `.lt("attempts", "max_attempts")` compares the integer `attempts` column with the text `max_attempts`. The database cannot read that text as an integer, so the selection fails. | a table with one pending, due row with `attempts = 0` and `max_attempts = 3` | select rows whose `attempts` is below their own `max_attempts` | not executed | EmailQueue.AsWrittenMissesDueRow | EmailQueue.SelectBatchSpec |
| app/savings/page.tsx:577-583 | The off-track reasons count the elapsed days against a 30-day month. The on-track test itself uses the month's real length. | on 1 February 2026, with an income plan of 56, no fixed costs, savings or buffer, and 3 spent that day, the card reads off track (3 against a daily limit of 53/28) but lists no reason | count the elapsed days in the month's own length, so a reason is shown exactly when the card reads off track | not executed | Savings.AsWrittenHidesDeviation | Savings.ReasonsExplainDeviation |
