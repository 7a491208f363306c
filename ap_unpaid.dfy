/**
  The management view of unpaid supplier invoices: the invoices dated in a
  window, their unpaid difference (invoice less paid, a missing amount
  counting as 0), kept for the chosen departments; a summary per department
  with a 总计 line, and a detail listing each department's invoices company by
  company followed by a `<dept> 汇总` line, then 总计. Also the month and the
  Monday-to-Sunday week each invoice date falls in.
*/
module ApUnpaid {

  import opened Common
  import opened Text
  import opened Sorting
  import opened Dates
  import opened Tables
  import opened Ledger

  // ---------------------------------------------------------------------------
  // the filtered ledger
  // ---------------------------------------------------------------------------

  /** `start <= 发票日期 <= end`; a missing invoice date is never in the window. */
  predicate InvoiceInWindow(r: Row, start: ValidDate, end: ValidDate)
  {
    InWindow(r.invoiceDate, start, end)
  }

  function InvoiceMask(start: ValidDate, end: ValidDate): Row -> bool
  {
    r => InvoiceInWindow(r, start, end)
  }

  /** The invoices of the window with their amounts filled (`fillna(0)`). */
  function TimeFiltered(rows: seq<Row>, start: ValidDate, end: ValidDate): seq<Row>
  {
    MapRows(Where(rows, InvoiceMask(start, end)), FillAmounts)
  }

  /** The window's invoices of the chosen departments. */
  function Filtered(rows: seq<Row>, start: ValidDate, end: ValidDate, departments: seq<string>): seq<Row>
  {
    Where(TimeFiltered(rows, start, end), r => InDepartments(r, departments))
  }

  /**
    The time filter keeps exactly the rows dated in the window, each as often
    as it occurs, with both amounts filled and the difference unchanged.
  */
  lemma TimeFilteredRows(rows: seq<Row>, start: ValidDate, end: ValidDate)
    ensures var t := TimeFiltered(rows, start, end);
      |t| <= |rows|
      && (forall i :: 0 <= i < |t| ==>
            InvoiceInWindow(t[i], start, end) && t[i].invoiceAmount.Some? && t[i].paid.Some?
            && UnpaidCol(t[i]) == t[i].invoiceAmount.value - t[i].paid.value)
      && (forall r :: multiset(Where(rows, InvoiceMask(start, end)))[r]
            == if InvoiceInWindow(r, start, end) then multiset(rows)[r] else 0)
  {
    var w := Where(rows, InvoiceMask(start, end));
    WhereCounts(rows, InvoiceMask(start, end));
    var t := TimeFiltered(rows, start, end);
    forall i | 0 <= i < |t|
      ensures InvoiceInWindow(t[i], start, end)
    {
      assert t[i] == FillAmounts(w[i]);
    }
  }

  /** The department filter only removes rows: what is left has a chosen department and came from the window. */
  lemma FilteredRows(rows: seq<Row>, start: ValidDate, end: ValidDate, departments: seq<string>)
    ensures var f := Filtered(rows, start, end, departments);
      var t := TimeFiltered(rows, start, end);
      |f| <= |t|
      && (forall i :: 0 <= i < |f| ==> InDepartments(f[i], departments) && f[i].dept.Some?)
      && (forall r :: multiset(f)[r] == if InDepartments(r, departments) then multiset(t)[r] else 0)
  {
    WhereCounts(TimeFiltered(rows, start, end), r => InDepartments(r, departments));
  }

  // ---------------------------------------------------------------------------
  // summary and detail
  // ---------------------------------------------------------------------------

  /** 发票金额, 实际支付金额, 应付未付差额. */
  function Columns(): seq<Row -> int>
  {
    [InvoiceCol, PaidCol, UnpaidCol]
  }

  /** The per-department summary with its 总计 line. */
  function DepartmentSummary(rows: seq<Row>, start: ValidDate, end: ValidDate, departments: seq<string>): seq<SummaryLine>
  {
    Summary(Filtered(rows, start, end, departments), DeptKey, Columns())
  }

  /**
    One summary line per chosen department with invoices in the window, in
    department order, holding that department's sums; the 总计 line holds the
    sums over every filtered invoice, and its difference is the invoice total
    less the paid total.
  */
  lemma SummaryFacts(rows: seq<Row>, start: ValidDate, end: ValidDate, departments: seq<string>)
    ensures var f := Filtered(rows, start, end, departments);
      var s := DepartmentSummary(rows, start, end, departments);
      var keys := Keys(f, DeptKey);
      |s| == |keys| + 1
      && (forall i :: 0 <= i < |keys| ==> s[i] == GroupLine(keys[i], Sums(Group(f, DeptKey, keys[i]), Columns())))
      && s[|keys|] == TotalLine(Sums(f, Columns()))
      && s[|keys|].sums[2] == s[|keys|].sums[0] - s[|keys|].sums[1]
  {
    var f := Filtered(rows, start, end, departments);
    FilteredRows(rows, start, end, departments);
    KeyedAll(f, DeptKey);
    SummaryTotals(f, DeptKey, Columns());
    ColumnSumDifference(f, InvoiceCol, PaidCol, UnpaidCol);
  }

  /** `ap_unpaid_query`'s detail table: department by department, company by company, then 汇总; finally 总计. */
  method UnpaidDetail(rows: seq<Row>, start: ValidDate, end: ValidDate, departments: seq<string>)
    returns (lines: seq<Line<Row>>)
    ensures lines == Detail(Filtered(rows, start, end, departments), DeptKey, Some(CompanyKey), Columns())
  {
    var f := Filtered(rows, start, end, departments);
    lines := BuildNestedDetail(f, DeptKey, CompanyKey, Columns());
  }

  /**
    The detail lists each filtered invoice exactly once, its 汇总 lines add up
    to the 总计 line, and the 总计 line holds the sums of every filtered invoice.
  */
  lemma DetailFacts(rows: seq<Row>, start: ValidDate, end: ValidDate, departments: seq<string>)
    ensures var f := Filtered(rows, start, end, departments);
      var d := Detail(f, DeptKey, Some(CompanyKey), Columns());
      multiset(ItemRows(d)) == multiset(f)
      && d[|d| - 1] == GrandTotal(Sums(f, Columns()))
      && forall j :: 0 <= j < 3 ==> SubtotalColumn(d, j) == d[|d| - 1].sums[j]
  {
    var f := Filtered(rows, start, end, departments);
    FilteredRows(rows, start, end, departments);
    KeyedAll(f, DeptKey);
    Tables.DetailFacts(f, DeptKey, Some(CompanyKey), Columns());
  }

  /** Each department's block: its invoices, all of that department, then a 汇总 line with their sums. */
  lemma DetailBlockFacts(rows: seq<Row>, start: ValidDate, end: ValidDate, departments: seq<string>, k: string)
    ensures var f := Filtered(rows, start, end, departments);
      var b := Block(f, DeptKey, k, Some(CompanyKey), Columns());
      var listed := ItemRows(b);
      multiset(listed) == multiset(Group(f, DeptKey, k))
      && (forall i :: 0 <= i < |listed| ==> listed[i].dept == Some(k))
      && b[|b| - 1] == Subtotal(k, Sums(listed, Columns()))
  {
    var f := Filtered(rows, start, end, departments);
    BlockFacts(f, DeptKey, k, Some(CompanyKey), Columns());
  }

  // ---------------------------------------------------------------------------
  // the 发票日期 column of the detail
  // ---------------------------------------------------------------------------

  /** The 发票日期 a detail line shows: its invoice's date, nothing on 汇总 and 总计 lines. */
  function LineInvoiceDate(line: Line<Row>): (s: string)
    ensures !line.Item? ==> s == ""
    ensures line.Item? ==> s == ShownDate(line.row.invoiceDate)
  {
    match line
    case Item(r) => ShownDate(r.invoiceDate)
    case _ => ShownDate(None)
  }

  // ---------------------------------------------------------------------------
  // months and weeks
  // ---------------------------------------------------------------------------

  /** 月份: `to_period('M').astype(str)`, which is the text `NaT` for a missing date. */
  function MonthOf(d: Option<ValidDate>): (s: string)
    ensures d.None? ==> s == "NaT"
    ensures d.Some? ==> |s| == 7 && s[4] == '-'
  {
    if d.Some? then MonthLabel(d.value) else "NaT"
  }

  /** Two dates (of four-digit years) get the same month label exactly when they share year and month. */
  lemma MonthLabelMeansMonth(a: ValidDate, b: ValidDate)
    requires a.year < 10000 && b.year < 10000
    ensures MonthLabel(a) == MonthLabel(b) <==> a.year == b.year && a.month == b.month
  {
    var sa := MonthLabel(a);
    var sb := MonthLabel(b);
    assert sa[..4] == PaddedDigits(a.year, 4) && sa[5..] == PaddedDigits(a.month, 2);
    assert sb[..4] == PaddedDigits(b.year, 4) && sb[5..] == PaddedDigits(b.month, 2);
    assert Pow10(2) == 100 && Pow10(4) == 10000;
    PaddedDigitsValue(a.year, 4);
    PaddedDigitsValue(a.month, 2);
    PaddedDigitsValue(b.year, 4);
    PaddedDigitsValue(b.month, 2);
  }

  lemma MultipleOfSeven(n: nat)
    ensures (n - n % 7) % 7 == 0 && n - n % 7 == 7 * (n / 7)
  {
  }

  /** 周开始: the Monday of the date's week (`date - weekday` days). */
  function WeekStart(d: ValidDate): (s: ValidDate)
    ensures Weekday(s) == 0
    ensures Ordinal(s) <= Ordinal(d) < Ordinal(s) + 7
    ensures Ordinal(s) == 7 * (Ordinal(d) / 7)
  {
    MultipleOfSeven(Ordinal(d));
    SubtractDays(d, Weekday(d))
  }

  /** 周结束: the Sunday six days after the week's Monday. */
  function WeekEnd(d: ValidDate): (e: ValidDate)
    ensures Weekday(e) == 6
    ensures Ordinal(e) == Ordinal(WeekStart(d)) + 6
  {
    var s := WeekStart(d);
    SundayOfWeek(Ordinal(s));
    AddDays(s, 6)
  }

  lemma SundayOfWeek(n: nat)
    requires n % 7 == 0
    ensures (n + 6) % 7 == 6
  {
  }

  /** 周范围: `"<Monday> ~ <Sunday>"`. */
  function WeekLabel(d: ValidDate): string
  {
    FormatDate(WeekStart(d)) + " ~ " + FormatDate(WeekEnd(d))
  }

  /** Every date lies in its own week: `周开始 <= 发票日期 <= 周结束`, so the weekly filter's date test never removes a row. */
  lemma DateWithinItsWeek(d: ValidDate)
    ensures DateLe(WeekStart(d), d) && DateLe(d, WeekEnd(d))
  {
    OrderMatchesOrdinal(WeekStart(d), d);
    OrderMatchesOrdinal(d, WeekEnd(d));
  }

  /** Two dates share a week exactly when their day counts have the same quotient by 7. */
  lemma SameWeek(a: ValidDate, b: ValidDate)
    ensures WeekStart(a) == WeekStart(b) <==> Ordinal(a) / 7 == Ordinal(b) / 7
  {
    OrderMatchesOrdinal(WeekStart(a), WeekStart(b));
  }

  /** Week labels (of four-digit years) name their week: equal labels mean the same Monday. */
  lemma WeekLabelMeansWeek(a: ValidDate, b: ValidDate)
    requires WeekStart(a).year < 10000 && WeekStart(b).year < 10000
    requires WeekLabel(a) == WeekLabel(b)
    ensures WeekStart(a) == WeekStart(b)
  {
    LabelStart(FormatDate(WeekStart(a)), FormatDate(WeekEnd(a)));
    LabelStart(FormatDate(WeekStart(b)), FormatDate(WeekEnd(b)));
    FormatDateInjective(WeekStart(a), WeekStart(b));
  }

  /** The first ten characters of a week label are its start date. */
  lemma LabelStart(start: string, end: string)
    requires |start| == 10
    ensures (start + " ~ " + end)[..10] == start
  {
  }

  /** The week label on a row, missing with its invoice date. */
  function RowWeek(r: Row): Option<string>
  {
    if r.invoiceDate.Some? then Some(WeekLabel(r.invoiceDate.value)) else None
  }

  /** A row takes part in the month's weeks when its date, its week's Monday or its week's Sunday lies in the month. */
  predicate TouchesMonth(r: Row, month: string)
  {
    r.invoiceDate.Some?
    && (MonthLabel(r.invoiceDate.value) == month
        || MonthLabel(WeekStart(r.invoiceDate.value)) == month
        || MonthLabel(WeekEnd(r.invoiceDate.value)) == month)
  }

  /**
    The `周范围` column. A row without a date matches the month option
    `NaT` in the source, adding a NaN week range; the model leaves such rows
    out of every month's weeks. Nothing in the weekly result changes, because
    the source's date comparisons with NaT are false, so that row is dropped
    from the weekly table either way.
  */
  function WeekColumn(r: Row): string
  {
    if r.invoiceDate.Some? then WeekLabel(r.invoiceDate.value) else ""
  }

  function Touching(month: string): Row -> bool
  {
    r => TouchesMonth(r, month)
  }

  /** The `周范围` column of the rows touching the month. */
  function TouchingWeeks(rows: seq<Row>, month: string): seq<string>
  {
    MapRows(Where(rows, Touching(month)), WeekColumn)
  }

  lemma TouchingWeeksCover(rows: seq<Row>, month: string)
    ensures forall i :: 0 <= i < |rows| && TouchesMonth(rows[i], month) ==> RowWeek(rows[i]).value in TouchingWeeks(rows, month)
  {
    forall i | 0 <= i < |rows| && TouchesMonth(rows[i], month) ensures RowWeek(rows[i]).value in TouchingWeeks(rows, month) {
      WhereColumnHas(rows, Touching(month), WeekColumn, i);
    }
  }

  lemma TouchingWeeksFrom(rows: seq<Row>, month: string)
    ensures forall l :: l in TouchingWeeks(rows, month) ==>
      exists i :: 0 <= i < |rows| && TouchesMonth(rows[i], month) && RowWeek(rows[i]) == Some(l)
  {
    forall l | l in TouchingWeeks(rows, month)
      ensures exists i :: 0 <= i < |rows| && TouchesMonth(rows[i], month) && RowWeek(rows[i]) == Some(l)
    {
      var i := WhereColumnFrom(rows, Touching(month), WeekColumn, l);
    }
  }

  /** The week labels of a month, each once, in order of appearance. */
  function WeeksOfMonth(rows: seq<Row>, month: string): (w: seq<string>)
    ensures NoDuplicates(w)
    ensures forall i :: 0 <= i < |rows| && TouchesMonth(rows[i], month) ==> RowWeek(rows[i]).value in w
    ensures forall l :: l in w ==> exists i :: 0 <= i < |rows| && TouchesMonth(rows[i], month) && RowWeek(rows[i]) == Some(l)
  {
    TouchingWeeksCover(rows, month);
    TouchingWeeksFrom(rows, month);
    Unique(TouchingWeeks(rows, month))
  }

  /** The weekly chart's row test: a week of the month, with the date inside its week. */
  predicate InWeeksOfMonth(r: Row, weeks: seq<string>)
  {
    r.invoiceDate.Some?
    && WeekLabel(r.invoiceDate.value) in weeks
    && DateLe(WeekStart(r.invoiceDate.value), r.invoiceDate.value)
    && DateLe(r.invoiceDate.value, WeekEnd(r.invoiceDate.value))
  }

  /** The date tests of the weekly filter always hold: it keeps exactly the dated rows whose week is listed. */
  lemma WeeklyFilterIsWeekTest(r: Row, weeks: seq<string>)
    ensures InWeeksOfMonth(r, weeks) <==> RowWeek(r).Some? && RowWeek(r).value in weeks
  {
    if r.invoiceDate.Some? {
      DateWithinItsWeek(r.invoiceDate.value);
    }
  }

  /** Every row dated in a month is picked up by that month's weekly filter. */
  lemma MonthRowsInWeeklyFilter(rows: seq<Row>, i: nat)
    requires i < |rows| && rows[i].invoiceDate.Some?
    ensures InWeeksOfMonth(rows[i], WeeksOfMonth(rows, MonthLabel(rows[i].invoiceDate.value)))
  {
    var month := MonthLabel(rows[i].invoiceDate.value);
    assert TouchesMonth(rows[i], month);
    WeeklyFilterIsWeekTest(rows[i], WeeksOfMonth(rows, month));
  }

  // ---------------------------------------------------------------------------
  // chart colours
  // ---------------------------------------------------------------------------

  /** `{dept: colors[i % len(colors)] for i, dept in enumerate(sorted departments)}`. */
  function ColourMap(departments: seq<string>, palette: seq<string>): (m: map<string, string>)
    requires Distinct(departments) && |palette| > 0
    ensures forall d :: d in m <==> d in departments
    ensures forall i :: 0 <= i < |departments| ==> m[departments[i]] == palette[i % |palette|]
  {
    map i | 0 <= i < |departments| :: departments[i] := palette[i % |palette|]
  }

  /** With no more departments than colours, distinct colours go to distinct departments. */
  lemma ColoursDistinct(departments: seq<string>, palette: seq<string>, i: nat, j: nat)
    requires Distinct(departments) && Distinct(palette) && 0 < |departments| <= |palette|
    requires i < j < |departments|
    ensures ColourMap(departments, palette)[departments[i]] != ColourMap(departments, palette)[departments[j]]
  {
    var m := ColourMap(departments, palette);
    SmallMod(i, |palette|);
    SmallMod(j, |palette|);
    assert m[departments[i]] == palette[i];
    assert m[departments[j]] == palette[j];
  }

  lemma SmallMod(k: nat, n: nat)
    requires k < n
    ensures k % n == k
  {
  }

  /** The chart's departments: every department of the ledger, sorted, each once. */
  function ChartDepartments(rows: seq<Row>): (r: seq<string>)
    ensures Distinct(r) && SortedText(r)
    ensures forall d :: d in r <==> exists i :: 0 <= i < |rows| && rows[i].dept == Some(d)
  {
    Keys(rows, DeptKey)
  }
}
