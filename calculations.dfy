/** The dashboard's financial aggregations: net worth per currency, spending per
    category and income per source over a date window, the savings rate, a
    two-period comparison, and the calendar windows for month, quarter and year.
    Tables are sequences of rows; money is `real`; "today" is a parameter. */
module Calculations {
  import opened Common
  import opened Tables
  import opened Calendar
  import ApiClient

  // ---------------------------------------------------------------------------
  // Net worth

  /** `df['include_net_worth'] == True`, and a currency for `groupby` to use
      (rows whose currency is null are dropped by the group-by). */
  predicate CountsTowards(a: ApiClient.AccountRow, currency: string) {
    a.includeNetWorth == Some(true) && a.currencyCode == Some(currency)
  }

  /** The sum of the balances of the included accounts held in a currency. */
  function BalanceFor(accounts: seq<ApiClient.AccountRow>, currency: string): real {
    if accounts == [] then 0.0
    else (if CountsTowards(accounts[0], currency) then accounts[0].currentBalance else 0.0)
         + BalanceFor(accounts[1..], currency)
  }

  lemma {:induction false} BalanceForAppend(accounts: seq<ApiClient.AccountRow>, a: ApiClient.AccountRow, currency: string)
    ensures BalanceFor(accounts + [a], currency)
         == BalanceFor(accounts, currency) + (if CountsTowards(a, currency) then a.currentBalance else 0.0)
  {
    if accounts == [] {
      assert accounts + [a] == [a];
    } else {
      assert (accounts + [a])[1..] == accounts[1..] + [a];
      BalanceForAppend(accounts[1..], a, currency);
    }
  }

  lemma {:induction false} BalanceForNone(accounts: seq<ApiClient.AccountRow>, currency: string)
    requires forall i :: 0 <= i < |accounts| ==> !CountsTowards(accounts[i], currency)
    ensures BalanceFor(accounts, currency) == 0.0
  {
    if accounts != [] {
      BalanceForNone(accounts[1..], currency);
    }
  }

  /** `calculate_net_worth`: a currency is a key exactly when some included
      account is held in it, and its value is the sum of those accounts'
      balances; excluded accounts contribute nothing. */
  function NetWorth(accounts: seq<ApiClient.AccountRow>): (m: map<string, real>)
    ensures forall c :: c in m <==> exists i :: 0 <= i < |accounts| && CountsTowards(accounts[i], c)
    ensures forall c :: c in m ==> m[c] == BalanceFor(accounts, c)
  {
    if accounts == [] then map[]
    else
      var init := accounts[..|accounts| - 1];
      var a := accounts[|accounts| - 1];
      var m := NetWorth(init);
      assert accounts == init + [a];
      if a.includeNetWorth == Some(true) && a.currencyCode.Some? then
        var c := a.currencyCode.value;
        BalanceForAppend(init, a, c);
        if c !in m then
          BalanceForNone(init, c);
          BalanceForAppendOthers(init, a, c);
          m[c := a.currentBalance]
        else
          BalanceForAppendOthers(init, a, c);
          m[c := m[c] + a.currentBalance]
      else
        BalanceForAppendOthers(init, a, "");
        m
  }

  /** Appending an account changes no other currency's balance. */
  lemma BalanceForAppendOthers(accounts: seq<ApiClient.AccountRow>, a: ApiClient.AccountRow, currency: string)
    ensures forall c :: !CountsTowards(a, c) ==> BalanceFor(accounts + [a], c) == BalanceFor(accounts, c)
  {
    forall c | !CountsTowards(a, c) ensures BalanceFor(accounts + [a], c) == BalanceFor(accounts, c) {
      BalanceForAppend(accounts, a, c);
    }
  }

  // ---------------------------------------------------------------------------
  // Spending by category and income by source

  /** A point in time in the table's own time zone: a date and a second of the day. */
  datatype Timestamp = Timestamp(date: Date, second: nat)

  predicate NotLater(a: Timestamp, b: Timestamp) {
    Before(a.date, b.date) || (a.date == b.date && a.second <= b.second)
  }

  /** A row of the transactions table as the calculations read it; a null date
      (NaT) fails every comparison. */
  datatype Txn = Txn(date: Option<Timestamp>, txnType: Option<string>, amount: real,
                     categoryName: Option<string>, sourceName: Option<string>)

  /** The window filter: a bound given as a date is midnight at the start of
      that day, so the end day itself is only included up to 00:00:00. */
  predicate InWindow(t: Txn, start: Option<Date>, end: Option<Date>) {
    && (start.None? || (t.date.Some? && NotLater(Timestamp(start.value, 0), t.date.value)))
    && (end.None? || (t.date.Some? && NotLater(t.date.value, Timestamp(end.value, 0))))
  }

  predicate Selects(t: Txn, start: Option<Date>, end: Option<Date>, kind: string) {
    t.txnType == Some(kind) && InWindow(t, start, end)
  }

  /** The transactions of one type inside the window, in table order. */
  function Selected(txns: seq<Txn>, start: Option<Date>, end: Option<Date>, kind: string): (r: seq<Txn>)
    ensures |r| <= |txns|
    ensures forall t :: t in r <==> t in txns && Selects(t, start, end, kind)
  {
    if txns == [] then []
    else
      assert txns == [txns[0]] + txns[1..];
      (if Selects(txns[0], start, end, kind) then [txns[0]] else []) + Selected(txns[1..], start, end, kind)
  }

  /** A missing or empty category is 'Uncategorized'. */
  function CategoryLabel(t: Txn): string {
    match t.categoryName
    case Some(c) => if c == "" then "Uncategorized" else c
    case None => "Uncategorized"
  }

  /** A missing or empty source is 'Unknown'. */
  function SourceLabel(t: Txn): string {
    match t.sourceName
    case Some(s) => if s == "" then "Unknown" else s
    case None => "Unknown"
  }

  /** Which column names a row's group. */
  datatype GroupKey = ByCategory | BySource

  function LabelOf(key: GroupKey, t: Txn): string {
    match key
    case ByCategory => CategoryLabel(t)
    case BySource => SourceLabel(t)
  }

  function Labelled(txns: seq<Txn>, key: GroupKey): (rows: seq<Row>)
    ensures |rows| == |txns|
    ensures forall i :: 0 <= i < |txns| ==> rows[i] == Row(LabelOf(key, txns[i]), txns[i].amount)
  {
    seq(|txns|, i requires 0 <= i < |txns| => Row(LabelOf(key, txns[i]), txns[i].amount))
  }

  /** The (category, amount) rows `calculate_category_spending` groups. */
  function SpendingRows(txns: seq<Txn>, start: Option<Date>, end: Option<Date>): seq<Row> {
    Labelled(Selected(txns, start, end, "withdrawal"), ByCategory)
  }

  /** The (source, amount) rows `calculate_income_sources` groups. */
  function IncomeRows(txns: seq<Txn>, start: Option<Date>, end: Option<Date>): seq<Row> {
    Labelled(Selected(txns, start, end, "deposit"), BySource)
  }

  /** Group by name, then sort by total, largest first. */
  function Summarize(rows: seq<Row>): seq<Group> {
    SortDesc(GroupBy(rows), GroupTotal)
  }

  /** A summary has one group per distinct name, sorted by total descending; each
      group's total and count are those of its rows, and the counts add up to the
      number of rows and the totals to their sum. */
  ghost predicate IsSummaryOf(r: seq<Group>, rows: seq<Row>) {
    && SortedDesc(r, GroupTotal)
    && DistinctBy(r, GroupName)
    && (forall y :: y in Names(r) <==> y in NameSet(rows))
    && (forall g :: g in r ==> g.total == SumFor(rows, g.name) && g.count == CountFor(rows, g.name) && g.count >= 1)
    && SumBy(r, GroupCount) == |rows| as real
    && SumBy(r, GroupTotal) == Total(rows)
  }

  /** Two orderings of the same groups hold the same groups and names. */
  lemma SameGroups(a: seq<Group>, b: seq<Group>)
    requires multiset(a) == multiset(b)
    ensures forall g :: g in a <==> g in b
    ensures forall y :: y in Names(a) <==> y in Names(b)
  {
    forall g ensures g in a <==> g in b {
      assert g in a <==> g in multiset(a);
    }
    forall y | y in Names(a) ensures y in Names(b) {
      var i :| 0 <= i < |a| && Names(a)[i] == y;
      assert a[i] in b;
      var k :| 0 <= k < |b| && b[k] == a[i];
      assert Names(b)[k] == y;
    }
    forall y | y in Names(b) ensures y in Names(a) {
      var i :| 0 <= i < |b| && Names(b)[i] == y;
      assert b[i] in a;
      var k :| 0 <= k < |a| && a[k] == b[i];
      assert Names(a)[k] == y;
    }
  }

  lemma SummarizeIsSummary(rows: seq<Row>)
    ensures IsSummaryOf(Summarize(rows), rows)
  {
    var groups := GroupBy(rows);
    GroupByProperties(rows);
    SortDescSorted(groups, GroupTotal);
    SortDescDistinct(groups, GroupTotal, GroupName);
    SortDescSum(groups, GroupTotal, GroupTotal);
    SortDescSum(groups, GroupTotal, GroupCount);
    SameGroups(Summarize(rows), groups);
  }

  /** No row label is empty: empty categories and sources have been renamed. */
  lemma LabelledNamesNonEmpty(ts: seq<Txn>, key: GroupKey)
    ensures forall y :: y in NameSet(Labelled(ts, key)) ==> y != ""
  {
    var rows := Labelled(ts, key);
    forall y | y in NameSet(rows) ensures y != "" {
      var row :| row in rows && row.name == y;
      var i :| 0 <= i < |rows| && rows[i] == row;
    }
  }

  /** `calculate_category_spending`: withdrawals inside the window, grouped by
      category (missing or empty is 'Uncategorized'), sorted by total descending. */
  function CategorySpending(txns: seq<Txn>, start: Option<Date>, end: Option<Date>): (r: seq<Group>)
    ensures IsSummaryOf(r, SpendingRows(txns, start, end))
    ensures SumBy(r, GroupCount) == |Selected(txns, start, end, "withdrawal")| as real
    ensures forall g :: g in r ==> g.name != ""
  {
    if txns == [] then []
    else
      var rows := SpendingRows(txns, start, end);
      SummarizeIsSummary(rows);
      LabelsNeverEmpty(Selected(txns, start, end, "withdrawal"), ByCategory, Summarize(rows));
      Summarize(rows)
  }

  /** `calculate_income_sources`: deposits inside the window, grouped by source
      (missing or empty is 'Unknown'), sorted by total descending. */
  function IncomeSources(txns: seq<Txn>, start: Option<Date>, end: Option<Date>): (r: seq<Group>)
    ensures IsSummaryOf(r, IncomeRows(txns, start, end))
    ensures SumBy(r, GroupCount) == |Selected(txns, start, end, "deposit")| as real
    ensures forall g :: g in r ==> g.name != ""
  {
    if txns == [] then []
    else
      var rows := IncomeRows(txns, start, end);
      SummarizeIsSummary(rows);
      LabelsNeverEmpty(Selected(txns, start, end, "deposit"), BySource, Summarize(rows));
      Summarize(rows)
  }

  lemma LabelsNeverEmpty(ts: seq<Txn>, key: GroupKey, r: seq<Group>)
    requires IsSummaryOf(r, Labelled(ts, key))
    ensures forall g :: g in r ==> g.name != ""
  {
    LabelledNamesNonEmpty(ts, key);
    forall g | g in r ensures g.name != "" {
      var i :| 0 <= i < |r| && r[i] == g;
      assert Names(r)[i] == g.name;
      assert g.name in NameSet(Labelled(ts, key));
    }
  }

  // ---------------------------------------------------------------------------
  // Savings rate

  /** `calculate_savings_rate`: 0 without positive income; otherwise the share of
      income not spent, in percent. Not clamped: negative when expenses exceed
      income. */
  function SavingsRate(income: real, expenses: real): (r: real)
    ensures income <= 0.0 ==> r == 0.0
    ensures income > 0.0 ==> r * income == (income - expenses) * 100.0
    ensures income > 0.0 ==> (r < 0.0 <==> expenses > income)
    ensures income > 0.0 && expenses >= 0.0 ==> r <= 100.0
  {
    if income <= 0.0 then 0.0
    else
      var savings := income - expenses;
      (savings / income) * 100.0
  }

  // ---------------------------------------------------------------------------
  // Period comparison

  datatype Metrics = Metrics(income: real, expenses: real, net: real)
  datatype Comparison = Comparison(current: Metrics, previous: Metrics, change: Metrics, changePct: Metrics)

  const NoMetrics := Metrics(0.0, 0.0, 0.0)

  function AmountSum(txns: seq<Txn>): real {
    if txns == [] then 0.0 else txns[0].amount + AmountSum(txns[1..])
  }

  /** Deposits, withdrawals and their difference inside one window. */
  function WindowMetrics(txns: seq<Txn>, start: Date, end: Date): Metrics {
    var income := AmountSum(Selected(txns, Some(start), Some(end), "deposit"));
    var expenses := AmountSum(Selected(txns, Some(start), Some(end), "withdrawal"));
    Metrics(income, expenses, income - expenses)
  }

  /** `part / whole * 100`. */
  function Percent(part: real, whole: real): (p: real)
    requires whole != 0.0
    ensures p * whole == part * 100.0
  {
    part / whole * 100.0
  }

  /** Each change as a percentage of its previous value, 0 where the previous
      income or expenses are not positive or the previous net is zero. */
  function ChangePercentages(change: Metrics, previous: Metrics): (p: Metrics)
    ensures previous.income > 0.0 ==> p.income * previous.income == change.income * 100.0
    ensures previous.income <= 0.0 ==> p.income == 0.0
    ensures previous.expenses > 0.0 ==> p.expenses * previous.expenses == change.expenses * 100.0
    ensures previous.expenses <= 0.0 ==> p.expenses == 0.0
    ensures previous.net != 0.0 ==> p.net * previous.net == change.net * 100.0
    ensures previous.net == 0.0 ==> p.net == 0.0
  {
    Metrics(if previous.income > 0.0 then Percent(change.income, previous.income) else 0.0,
            if previous.expenses > 0.0 then Percent(change.expenses, previous.expenses) else 0.0,
            if previous.net != 0.0 then Percent(change.net, previous.net) else 0.0)
  }

  /** `calculate_period_comparison`: the two windows' totals, their difference,
      and the difference as a percentage of the previous window, 0 where the
      previous value is not positive (net: zero). */
  function PeriodComparison(txns: seq<Txn>, currentStart: Date, currentEnd: Date,
                            previousStart: Date, previousEnd: Date): (r: Comparison)
    ensures txns == [] ==> r == Comparison(NoMetrics, NoMetrics, NoMetrics, NoMetrics)
    ensures r.current.income == AmountSum(Selected(txns, Some(currentStart), Some(currentEnd), "deposit"))
    ensures r.current.expenses == AmountSum(Selected(txns, Some(currentStart), Some(currentEnd), "withdrawal"))
    ensures r.previous.income == AmountSum(Selected(txns, Some(previousStart), Some(previousEnd), "deposit"))
    ensures r.previous.expenses == AmountSum(Selected(txns, Some(previousStart), Some(previousEnd), "withdrawal"))
    ensures r.current.net == r.current.income - r.current.expenses
    ensures r.previous.net == r.previous.income - r.previous.expenses
    ensures r.change.income == r.current.income - r.previous.income
    ensures r.change.expenses == r.current.expenses - r.previous.expenses
    ensures r.change.net == r.current.net - r.previous.net
    ensures r.change.net == r.change.income - r.change.expenses
    ensures r.changePct == ChangePercentages(r.change, r.previous)
  {
    if txns == [] then Comparison(NoMetrics, NoMetrics, NoMetrics, NoMetrics)
    else
      var current := WindowMetrics(txns, currentStart, currentEnd);
      var previous := WindowMetrics(txns, previousStart, previousEnd);
      var change := Metrics(current.income - previous.income, current.expenses - previous.expenses,
                            current.net - previous.net);
      Comparison(current, previous, change, ChangePercentages(change, previous))
  }

  // ---------------------------------------------------------------------------
  // Calendar windows

  datatype Range = Range(start: Date, end: Date)
  datatype DateRanges = DateRanges(current: Range, previous: Range)

  /** Python's ValueError: an unknown period type, or a `replace` to a day that
      does not exist. */
  datatype RangeError = UnknownPeriodType(periodType: string) | DateOutOfRange

  function QuarterOf(month: int): int { (month - 1) / 3 + 1 }
  function QuarterStartMonth(quarter: int): int { (quarter - 1) * 3 + 1 }

  /** The 'month' branch: this calendar month, and the one before it. */
  function MonthRanges(today: Date): (r: Result<DateRanges, RangeError>)
    requires ValidDate(today)
    ensures r.Success? <==> !(today.month == 1 && today.year == MinYear)
    ensures r.Success? ==> r.value.current == Range(Date(today.year, today.month, 1),
                                                     Date(today.year, today.month, DaysInMonth(today.year, today.month)))
    ensures r.Success? && today.month == 1 ==> r.value.previous == Range(Date(today.year - 1, 12, 1), Date(today.year - 1, 12, 31))
    ensures r.Success? && today.month > 1 ==> r.value.previous == Range(Date(today.year, today.month - 1, 1),
                                                     Date(today.year, today.month - 1, DaysInMonth(today.year, today.month - 1)))
  {
    var y, m := today.year, today.month;
    var currentStart := Date(y, m, 1);
    var currentEnd := if m == 12 then Date(y, 12, 31) else PrevDay(Date(y, m + 1, 1));
    if m == 1 then
      match Replace(y - 1, 12, 1)
      case None => Failure(DateOutOfRange)
      case Some(previousStart) =>
        match Replace(y - 1, 12, 31)
        case None => Failure(DateOutOfRange)
        case Some(previousEnd) => Success(DateRanges(Range(currentStart, currentEnd), Range(previousStart, previousEnd)))
    else
      Success(DateRanges(Range(currentStart, currentEnd), Range(Date(y, m - 1, 1), PrevDay(currentStart))))
  }

  /** The 'quarter' branch: this quarter up to today, and the whole quarter
      before it, which ends the day before this quarter starts. */
  function QuarterRanges(today: Date): (r: Result<DateRanges, RangeError>)
    requires ValidDate(today)
    ensures r.Success? <==> !(QuarterOf(today.month) == 1 && today.year == MinYear)
    ensures r.Success? ==> r.value.current == Range(Date(today.year, QuarterStartMonth(QuarterOf(today.month)), 1), today)
    ensures r.Success? && QuarterOf(today.month) == 1 ==> r.value.previous == Range(Date(today.year - 1, 10, 1), Date(today.year - 1, 12, 31))
    ensures r.Success? && QuarterOf(today.month) > 1 ==>
              r.value.previous == Range(Date(today.year, QuarterStartMonth(QuarterOf(today.month)) - 3, 1),
                                        Date(today.year, QuarterStartMonth(QuarterOf(today.month)) - 1,
                                             DaysInMonth(today.year, QuarterStartMonth(QuarterOf(today.month)) - 1)))
  {
    var y := today.year;
    var q := QuarterOf(today.month);
    var currentStart := Date(y, QuarterStartMonth(q), 1);
    var previousQuarter := if q == 1 then 4 else q - 1;
    var previousYear := if q == 1 then y - 1 else y;
    match Replace(previousYear, QuarterStartMonth(previousQuarter), 1)
    case None => Failure(DateOutOfRange)
    case Some(previousStart) =>
      Success(DateRanges(Range(currentStart, today), Range(previousStart, PrevDay(currentStart))))
  }

  /** The 'quarter' branch as written: the previous quarter's end is the day
      before the first of month 3 * previousQuarter + 1, which is month 13 when
      the previous quarter is the fourth, so `replace` raises in January to March.
      In every other month it agrees with QuarterRanges. */
  function QuarterRangesAsWritten(today: Date): (r: Result<DateRanges, RangeError>)
    requires ValidDate(today)
    ensures today.month <= 3 ==> r == Failure(DateOutOfRange)
    ensures today.month > 3 ==> r == QuarterRanges(today)
  {
    var y := today.year;
    var q := QuarterOf(today.month);
    var currentStart := Date(y, QuarterStartMonth(q), 1);
    var previousQuarter := if q == 1 then 4 else q - 1;
    var previousYear := if q == 1 then y - 1 else y;
    match Replace(previousYear, QuarterStartMonth(previousQuarter), 1)
    case None => Failure(DateOutOfRange)
    case Some(previousStart) =>
      match Replace(previousYear, previousQuarter * 3 + 1, 1)
      case None => Failure(DateOutOfRange)
      case Some(next) => Success(DateRanges(Range(currentStart, today), Range(previousStart, PrevDay(next))))
  }

  /** The 'year' branch: this year up to today, and the whole year before. */
  function YearRanges(today: Date): (r: Result<DateRanges, RangeError>)
    requires ValidDate(today)
    ensures r.Success? <==> today.year > MinYear
    ensures r.Success? ==> r.value == DateRanges(Range(Date(today.year, 1, 1), today),
                                                 Range(Date(today.year - 1, 1, 1), Date(today.year - 1, 12, 31)))
  {
    match Replace(today.year - 1, 1, 1)
    case None => Failure(DateOutOfRange)
    case Some(previousStart) =>
      match Replace(today.year - 1, 12, 31)
      case None => Failure(DateOutOfRange)
      case Some(previousEnd) => Success(DateRanges(Range(Date(today.year, 1, 1), today), Range(previousStart, previousEnd)))
  }

  /** `get_date_ranges(period_type)` with `datetime.now()` passed in as today,
      and the quarter branch corrected. */
  function GetDateRanges(periodType: string, today: Date): (r: Result<DateRanges, RangeError>)
    requires ValidDate(today)
    ensures periodType != "month" && periodType != "quarter" && periodType != "year" ==>
      r == Failure(UnknownPeriodType(periodType))
  {
    if periodType == "month" then MonthRanges(today)
    else if periodType == "quarter" then QuarterRanges(today)
    else if periodType == "year" then YearRanges(today)
    else Failure(UnknownPeriodType(periodType))
  }

  /** `get_date_ranges` as written. */
  function GetDateRangesAsWritten(periodType: string, today: Date): (r: Result<DateRanges, RangeError>)
    requires ValidDate(today)
    ensures periodType == "quarter" && today.month <= 3 ==> r == Failure(DateOutOfRange)
    ensures !(periodType == "quarter" && today.month <= 3) ==> r == GetDateRanges(periodType, today)
  {
    if periodType == "quarter" then QuarterRangesAsWritten(today) else GetDateRanges(periodType, today)
  }

  /** Every successful result is a pair of well-formed windows that touch: the
      previous window ends on the day before the current one starts, and each
      starts no later than it ends. */
  lemma DateRangesContiguous(periodType: string, today: Date)
    requires ValidDate(today)
    requires GetDateRanges(periodType, today).Success?
    ensures var d := GetDateRanges(periodType, today).value;
      && ValidDate(d.current.start) && ValidDate(d.current.end)
      && ValidDate(d.previous.start) && ValidDate(d.previous.end)
      && !Before(d.current.end, d.current.start)
      && !Before(d.previous.end, d.previous.start)
      && d.current.start != Date(MinYear, 1, 1)
      && d.previous.end == PrevDay(d.current.start)
      && d.previous.end != Date(MaxYear, 12, 31)
      && NextDay(d.previous.end) == d.current.start
  {
    var d := GetDateRanges(periodType, today).value;
    NextDayUndoesPrevDay(d.current.start);
  }

  /** In January to March `get_date_ranges('quarter')` raises, while the
      corrected branch returns the last quarter of the previous year. */
  lemma QuarterInFebruary()
    ensures GetDateRangesAsWritten("quarter", Date(2024, 2, 10)) == Failure(DateOutOfRange)
    ensures GetDateRanges("quarter", Date(2024, 2, 10)) ==
      Success(DateRanges(Range(Date(2024, 1, 1), Date(2024, 2, 10)), Range(Date(2023, 10, 1), Date(2023, 12, 31))))
  {
  }
}
