/** The family statistics page: the family's transactions for the selected period, optionally
    narrowed to the member who recorded them, with overall totals, one row per family member and
    the expense-by-category chart. */
module FamilyStats {
  import Seqs
  import opened Ledger
  import opened Allowance
  import opened Periods
  import Reports
  import Tally

  /** The value of the member selector that applies no member filter. */
  const ALL_MEMBERS: string := "all"

  /** One family member as loaded with the family. */
  datatype FamilyMember = FamilyMember(userId: string, displayName: string)

  /** `t => t.created_by === userId` */
  function CreatedBy(userId: string): Transaction -> bool
  {
    (t: Transaction) => t.createdBy == userId
  }

  /** `getFilteredTransactions`: the period filter (inclusive at both ends, the current month when
      the period is not one the page knows), then, unless "all" members are selected, only the
      selected member's transactions. */
  function Filtered(txs: seq<Transaction>, period: string, member: string, today: Date): (r: seq<Transaction>)
    requires ValidDate(today)
    ensures forall t :: t in r <==> t in txs && InWindow(t.date, FamilyWindow(period, today))
                                    && (member == ALL_MEMBERS || t.createdBy == member)
  {
    var inPeriod := Seqs.Filter(txs, Reports.DatedIn(FamilyWindow(period, today)));
    if member != ALL_MEMBERS then Seqs.Filter(inPeriod, CreatedBy(member)) else inPeriod
  }

  /** With "all" members the page shows what the reports page shows for the periods both know. */
  lemma AllMembersIsReportFilter(txs: seq<Transaction>, period: string, today: Date)
    requires ValidDate(today)
    requires period in {CURRENT_MONTH, LAST_MONTH, CURRENT_YEAR, LAST_3_MONTHS}
    ensures Filtered(txs, period, ALL_MEMBERS, today) == Reports.Filtered(txs, period, today)
  {
    assert FamilyWindow(period, today) == ReportWindow(period, today);
  }

  /** "last-year", "last-6-months" and any unknown period show the current month here. */
  lemma OtherPeriodsAreCurrentMonth(txs: seq<Transaction>, period: string, member: string, today: Date)
    requires ValidDate(today)
    requires period !in {LAST_MONTH, CURRENT_YEAR, LAST_3_MONTHS}
    ensures Filtered(txs, period, member, today) == Filtered(txs, CURRENT_MONTH, member, today)
  {
    assert FamilyWindow(period, today) == FamilyWindow(CURRENT_MONTH, today);
  }

  /** One row of `memberStats`. */
  datatype MemberRow = MemberRow(name: string, income: real, expenses: real, balance: real, transactions: nat)

  /** The row of one member over the filtered transactions. */
  function MemberRowOf(member: FamilyMember, filtered: seq<Transaction>): (row: MemberRow)
    ensures var mine := Seqs.Filter(filtered, CreatedBy(member.userId));
      && row.name == member.displayName
      && row.income == TotalOf(mine, Income) && row.expenses == TotalOf(mine, Expense)
      && row.balance == row.income - row.expenses
      && row.transactions == |mine|
  {
    var mine := Seqs.Filter(filtered, CreatedBy(member.userId));
    var totals := TotalsOf(mine);
    MemberRow(member.displayName, totals.totalIncome, totals.totalExpenses, totals.balance, |mine|)
  }

  /** `memberStats`: one row per family member, in the family's order. */
  function MemberStats(members: seq<FamilyMember>, filtered: seq<Transaction>): (rows: seq<MemberRow>)
    ensures |rows| == |members|
    ensures forall i :: 0 <= i < |members| ==> rows[i] == MemberRowOf(members[i], filtered)
  {
    seq(|members|, i requires 0 <= i < |members| => MemberRowOf(members[i], filtered))
  }

  /** A member's row counts exactly the filtered transactions that member recorded. */
  lemma MemberRowCounts(member: FamilyMember, filtered: seq<Transaction>, t: Transaction)
    ensures multiset(Seqs.Filter(filtered, CreatedBy(member.userId)))[t]
            == if t.createdBy == member.userId then multiset(filtered)[t] else 0
  {
    Seqs.FilterCount(filtered, CreatedBy(member.userId), t);
  }

  /** With one member selected, every other member's row is empty: no transactions, nothing
      earned or spent. */
  lemma OthersAreEmpty(txs: seq<Transaction>, period: string, selected: string, today: Date, member: FamilyMember)
    requires ValidDate(today)
    requires selected != ALL_MEMBERS && member.userId != selected
    ensures var row := MemberRowOf(member, Filtered(txs, period, selected, today));
      row.transactions == 0 && row.income == 0.0 && row.expenses == 0.0 && row.balance == 0.0
  {
  }

  /** The selected member's row sums the whole filtered list: its totals are the page totals. */
  lemma SelectedIsEverything(txs: seq<Transaction>, period: string, selected: string, today: Date, member: FamilyMember)
    requires ValidDate(today)
    requires selected != ALL_MEMBERS && member.userId == selected
    ensures var filtered := Filtered(txs, period, selected, today);
      var row := MemberRowOf(member, filtered);
      && row.transactions == |filtered|
      && row.income == TotalsOf(filtered).totalIncome && row.expenses == TotalsOf(filtered).totalExpenses
      && row.balance == TotalsOf(filtered).balance
  {
    var filtered := Filtered(txs, period, selected, today);
    var inPeriod := Seqs.Filter(txs, Reports.DatedIn(FamilyWindow(period, today)));
    Seqs.FilterFilter(inPeriod, CreatedBy(selected), CreatedBy(selected), CreatedBy(selected));
  }

  /** `categoryData`: the same expense-by-category reduction as on the reports page, over this
      page's filtered list; its values add up to the page's expense total. */
  lemma CategoryDataTotal(txs: seq<Transaction>, period: string, member: string, today: Date)
    requires ValidDate(today)
    ensures var filtered := Filtered(txs, period, member, today);
      Tally.Total(Reports.CategoryData(filtered)) == TotalsOf(filtered).totalExpenses
  {
    Reports.CategoryDataTotal(Filtered(txs, period, member, today));
  }
}
