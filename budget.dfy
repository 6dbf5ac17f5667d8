/** The budget page: one row per expense category that has a positive monthly limit, the spending
    against it this month, the four-way status, the page totals, and the "set budget" form. */
module Budget {
  import opened Wrappers
  import Seqs
  import opened Ledger

  /** One entry of `budgetData`. */
  datatype BudgetRow = BudgetRow(category: string, budgetLimit: real, spent: real, remaining: real, percentage: real)

  /** `cat.budget_limit && cat.budget_limit > 0` */
  predicate HasBudget(c: Category)
  {
    c.budgetLimit.Some? && c.budgetLimit.value > 0.0
  }

  /** `transactions?.filter(t => t.category === name).reduce(...) || 0`: the month's expenses in the
      category, 0 when the query returned nothing. */
  function Spent(monthExpenses: Option<seq<Transaction>>, name: string): real
  {
    match monthExpenses
    case None => 0.0
    case Some(txs) => Seqs.SumBy(Seqs.Filter(txs, CategoryIs(name)), Amount)
  }

  /** The row of one budgeted category. */
  function RowFor(c: Category, monthExpenses: Option<seq<Transaction>>): (r: BudgetRow)
    requires HasBudget(c)
    ensures r.category == c.name && r.budgetLimit == c.budgetLimit.value > 0.0
    ensures r.spent == Spent(monthExpenses, c.name)
    ensures r.remaining == r.budgetLimit - r.spent
    ensures r.percentage * r.budgetLimit == r.spent * 100.0
  {
    var limit := c.budgetLimit.value;
    var spent := Spent(monthExpenses, c.name);
    BudgetRow(c.name, limit, spent, limit - spent, spent / limit * 100.0)
  }

  /** `calculateBudgetData`: `monthExpenses` is the result of the month's expense query (`None`
      when it failed). */
  function BudgetRows(categories: seq<Category>, monthExpenses: Option<seq<Transaction>>): (rows: seq<BudgetRow>)
    ensures |rows| == |Seqs.Filter(categories, HasBudget)|
    ensures forall i :: 0 <= i < |rows| ==> rows[i] == RowFor(Seqs.Filter(categories, HasBudget)[i], monthExpenses)
  {
    var budgeted := Seqs.Filter(categories, HasBudget);
    seq(|budgeted|, i requires 0 <= i < |budgeted| => RowFor(budgeted[i], monthExpenses))
  }

  /** A row exists exactly for each category with a positive limit, and every row has a positive
      limit and a remaining amount that goes negative once the limit is passed. */
  lemma BudgetRowsSpec(categories: seq<Category>, monthExpenses: Option<seq<Transaction>>)
    ensures var rows := BudgetRows(categories, monthExpenses);
      && (forall c :: c in categories && HasBudget(c) ==> RowFor(c, monthExpenses) in rows)
      && (forall r :: r in rows ==> exists c :: c in categories && HasBudget(c) && r == RowFor(c, monthExpenses))
      && (forall r :: r in rows ==> r.budgetLimit > 0.0 && (r.remaining < 0.0 <==> r.spent > r.budgetLimit))
  {
    var budgeted := Seqs.Filter(categories, HasBudget);
    var rows := BudgetRows(categories, monthExpenses);
    forall c | c in categories && HasBudget(c) ensures RowFor(c, monthExpenses) in rows {
      var i :| 0 <= i < |budgeted| && budgeted[i] == c;
      assert rows[i] == RowFor(c, monthExpenses);
    }
    forall r | r in rows ensures exists c :: c in categories && HasBudget(c) && r == RowFor(c, monthExpenses) {
      var i :| 0 <= i < |rows| && rows[i] == r;
      assert budgeted[i] in budgeted;
    }
  }

  /** `Math.min(100, percentage)`: the progress bar value. */
  function Progress(r: BudgetRow): (p: real)
    ensures p <= 100.0
    ensures p == 100.0 || p == r.percentage
  {
    if r.percentage < 100.0 then r.percentage else 100.0
  }

  /** For a budgeted row, the bar is full exactly when the limit is reached. */
  lemma ProgressFullIffLimitReached(c: Category, monthExpenses: Option<seq<Transaction>>)
    requires HasBudget(c)
    ensures var r := RowFor(c, monthExpenses);
      (Progress(r) == 100.0 <==> r.spent >= r.budgetLimit) && (r.spent >= 0.0 ==> Progress(r) >= 0.0)
  {
    var r := RowFor(c, monthExpenses);
    PercentageSign(r.percentage, r.spent, r.budgetLimit, 100.0);
    PercentageSign(r.percentage, r.spent, r.budgetLimit, 0.0);
  }

  /** With `percentage * limit == spent * 100` and a positive limit, the percentage lies on the same
      side of `t` as the spending does of `t` percent of the limit. */
  lemma PercentageSign(percentage: real, spent: real, limit: real, t: real)
    requires limit > 0.0 && percentage * limit == spent * 100.0
    ensures percentage > t <==> spent * 100.0 > limit * t
    ensures percentage == t <==> spent * 100.0 == limit * t
  {
    var a := percentage - t;
    assert a * limit == spent * 100.0 - limit * t;
    if a > 0.0 {
      assert a * limit > 0.0;
    } else if a < 0.0 {
      assert (-a) * limit > 0.0;
    }
  }

  datatype BudgetStatus =
    | Exceeded  // "Превышен"
    | AtLimit   // "Достигнут лимит"
    | NearLimit // "Близко к лимиту"
    | Normal    // "В пределах нормы"

  /** `getBudgetStatus`: the first test that holds decides. */
  function StatusOf(spent: real, budgetLimit: real): (st: BudgetStatus)
    ensures st == Exceeded <==> spent > budgetLimit
    ensures st == AtLimit <==> spent == budgetLimit
    ensures st == NearLimit <==> budgetLimit * 0.8 <= spent < budgetLimit
    ensures st == Normal <==> spent < budgetLimit && spent < budgetLimit * 0.8
  {
    if spent > budgetLimit then Exceeded
    else if spent == budgetLimit then AtLimit
    else if spent >= budgetLimit * 0.8 then NearLimit
    else Normal
  }

  /** For a budgeted row the status follows the percentage: near the limit means 80% up to 100%. */
  lemma StatusByPercentage(c: Category, monthExpenses: Option<seq<Transaction>>)
    requires HasBudget(c)
    ensures var r := RowFor(c, monthExpenses);
      && (StatusOf(r.spent, r.budgetLimit) == Exceeded <==> r.percentage > 100.0)
      && (StatusOf(r.spent, r.budgetLimit) == AtLimit <==> r.percentage == 100.0)
      && (StatusOf(r.spent, r.budgetLimit) == NearLimit <==> 80.0 <= r.percentage < 100.0)
      && (StatusOf(r.spent, r.budgetLimit) == Normal <==> r.percentage < 80.0)
  {
    var r := RowFor(c, monthExpenses);
    PercentageSign(r.percentage, r.spent, r.budgetLimit, 100.0);
    PercentageSign(r.percentage, r.spent, r.budgetLimit, 80.0);
  }

  function SumLimits(rows: seq<BudgetRow>): real
    decreases |rows|
  {
    if rows == [] then 0.0 else rows[0].budgetLimit + SumLimits(rows[1..])
  }

  function SumSpent(rows: seq<BudgetRow>): real
    decreases |rows|
  {
    if rows == [] then 0.0 else rows[0].spent + SumSpent(rows[1..])
  }

  function SumRemaining(rows: seq<BudgetRow>): real
    decreases |rows|
  {
    if rows == [] then 0.0 else rows[0].remaining + SumRemaining(rows[1..])
  }

  /** `totalRemaining = totalBudget - totalSpent` */
  function TotalRemaining(rows: seq<BudgetRow>): real
  {
    SumLimits(rows) - SumSpent(rows)
  }

  /** The page's remaining total is the sum of the rows' remaining amounts. */
  lemma {:induction false} TotalRemainingIsSumOfRows(categories: seq<Category>, monthExpenses: Option<seq<Transaction>>)
    ensures TotalRemaining(BudgetRows(categories, monthExpenses)) == SumRemaining(BudgetRows(categories, monthExpenses))
  {
    RowsRemainingSum(BudgetRows(categories, monthExpenses));
  }

  lemma {:induction false} RowsRemainingSum(rows: seq<BudgetRow>)
    requires forall r :: r in rows ==> r.remaining == r.budgetLimit - r.spent
    ensures SumLimits(rows) - SumSpent(rows) == SumRemaining(rows)
    decreases |rows|
  {
    if rows != [] {
      assert rows[0] in rows;
      assert forall r :: r in rows[1..] ==> r in rows;
      RowsRemainingSum(rows[1..]);
    }
  }

  // ---------------------------------------------------------------------------------------------
  // The "set budget" form

  const INVALID_AMOUNT: string := "Пожалуйста, введите корректную сумму бюджета"
  const NO_CATEGORY: string := "Категория не выбрана"
  const BUDGET_SAVED: string := "Бюджет успешно установлен!"

  datatype SetBudgetOutcome =
    | Invalid(error: string)                // no update issued
    | UpdateFailed(error: string)           // the update was issued and the store reported an error
    | Saved(categoryId: string, limit: real) // `{ budget_limit }` written for that id

  /** `handleSetBudget`. `parsed` is `parseFloat` of the field (`None` for NaN), `editing` the
      category the dialog was opened for, `update` what the store answers to the update. */
  function SetBudget(parsed: Option<real>, editing: Option<Category>, update: StoreResult): (o: SetBudgetOutcome)
    ensures (parsed.None? || parsed.value <= 0.0) ==> o == Invalid(INVALID_AMOUNT)
    ensures parsed.Some? && parsed.value > 0.0 && editing.None? ==> o == Invalid(NO_CATEGORY)
    ensures o.Saved? <==> parsed.Some? && parsed.value > 0.0 && editing.Some? && update.StoreOk?
    ensures o.Saved? ==> o.categoryId == editing.value.id && o.limit == parsed.value
    ensures o.UpdateFailed? ==> update.StoreError? && o.error == update.message
  {
    if parsed.None? || parsed.value <= 0.0 then Invalid(INVALID_AMOUNT)
    else if editing.None? then Invalid(NO_CATEGORY)
    else match update
      case StoreError(m) => UpdateFailed(m)
      case StoreOk => Saved(editing.value.id, parsed.value)
  }

  /** The store after a saved budget: that category's limit set, every other row unchanged. */
  function ApplyLimit(categories: seq<Category>, id: string, limit: real): (cs: seq<Category>)
    ensures |cs| == |categories|
    ensures forall i :: 0 <= i < |cs| ==>
      cs[i] == if categories[i].id == id then categories[i].(budgetLimit := Some(limit)) else categories[i]
  {
    seq(|categories|, i requires 0 <= i < |categories| =>
      if categories[i].id == id then categories[i].(budgetLimit := Some(limit)) else categories[i])
  }

  /** After a saved budget the category shows up on the page with that limit. */
  lemma SavedCategoryGetsRow(categories: seq<Category>, c: Category, parsed: Option<real>, update: StoreResult,
                             monthExpenses: Option<seq<Transaction>>)
    requires c in categories
    requires SetBudget(parsed, Some(c), update).Saved?
    ensures var o := SetBudget(parsed, Some(c), update);
      RowFor(c.(budgetLimit := Some(o.limit)), monthExpenses) in BudgetRows(ApplyLimit(categories, c.id, o.limit), monthExpenses)
  {
    var o := SetBudget(parsed, Some(c), update);
    var cs := ApplyLimit(categories, c.id, o.limit);
    var i :| 0 <= i < |categories| && categories[i] == c;
    assert cs[i] == c.(budgetLimit := Some(o.limit));
    BudgetRowsSpec(cs, monthExpenses);
  }
}
