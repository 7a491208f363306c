/**
  The accounting version of the unpaid-invoice report. Only purchase
  departments count, and invoices paid by credit card are left out. An
  invoice counts as paid when its bank reconciliation date (银行对账日期)
  falls in the chosen window.

  For suppliers that debit the account directly, and for rows whose cheque
  "number" is a debit reference starting with a letter, the reconciliation
  date is derived. First a posting date (银行过账日期) is found: the cheque
  date, or else the invoice date plus 10 days. It is then snapped to a bank
  statement cycle: the 25th of one month through the 24th of the next
  reconciles on the 1st of that next month.

  The report keeps the invoices dated in the window. It drops those fully
  reconciled in the window and counts the unreconciled ones as unpaid. It
  shows a per-department summary with a 总计 line and a Hors Taxes column,
  and a detail with per-department subtotals.
*/
module ApUnpaidCompta {

  import opened Common
  import opened Text
  import opened Dates
  import opened Tables
  import opened Ledger
  import opened Sidebar
  import opened ApUnpaid

  // ---------------------------------------------------------------------------
  // fixed lists
  // ---------------------------------------------------------------------------

  /** The purchase departments the accounting report covers. */
  const PurchaseDepartments: seq<string> := ["冻部", "厨房", "杂货", "牛奶生鲜", "肉部", "菜部", "运输", "酒水", "鱼部"]

  /** Suppliers paid by credit card, not from the cheque account. */
  const CardCompanies: seq<string> := ["SLEEMAN", "Arc-en-ciel", "Ferme vallee verte"]

  /** Suppliers that debit the account directly (PPA, debit). */
  const TargetCompanies: seq<string> := [
    "SERVICELAB", "Wah Teng", "Saputo", "Monco", "ALEX COULOMBE", "Canada Bread",
    "CANADAWIDE FRUIT", "Beaudry & Cadrin Inc", "Bimbo", "IMPERIAL TOBACCO CANADA",
    "BOULANGERIE BLOUIN", "korsmet"
  ]

  // ---------------------------------------------------------------------------
  // calculate_reconcile_date
  // ---------------------------------------------------------------------------

  /** The 1st of the month after the posting date's month when it is on or after the 25th, else the 1st of its own month. */
  function Reconcile(p: ValidDate): (r: ValidDate)
    ensures r.day == 1
  {
    if p.day >= 25 then
      Date(if p.month < 12 then p.year else p.year + 1, p.month % 12 + 1, 1)
    else
      Date(p.year, p.month, 1)
  }

  /** `calculate_reconcile_date`: NaT stays NaT. */
  function ReconcileDate(p: Option<ValidDate>): (r: Option<ValidDate>)
    ensures r.None? <==> p.None?
    ensures r.Some? ==> r.value.day == 1 && r.value == Reconcile(p.value)
  {
    if p.Some? then Some(Reconcile(p.value)) else None
  }

  /** The month before `(y, m)`. */
  function PrecedingMonth(y: int, m: int): (int, int)
  {
    if m == 1 then (y - 1, 12) else (y, m - 1)
  }

  /**
    The statement cycles: a posting date reconciles on the 1st of month `m`
    of year `y` exactly when it lies between the 25th of the month before and
    the 24th of `m`.
  */
  lemma ReconcileCycle(p: ValidDate, y: int, m: int)
    requires 1 <= m <= 12
    ensures Reconcile(p) == Date(y, m, 1)
        <==> (p.year == y && p.month == m && p.day <= 24)
             || ((p.year, p.month) == PrecedingMonth(y, m) && p.day >= 25)
  {
  }

  /**
    The reconciliation date is at most 23 days before the posting date and at
    most 7 days after it, and it is after it exactly when the posting is on or
    after the 25th.
  */
  lemma ReconcileNearPosting(p: ValidDate)
    ensures Ordinal(p) - 23 <= Ordinal(Reconcile(p)) <= Ordinal(p) + 7
    ensures Ordinal(Reconcile(p)) > Ordinal(p) <==> p.day >= 25
  {
    if p.day >= 25 {
      ReconcileLate(p);
    } else {
      assert Reconcile(p) == Date(p.year, p.month, 1);
    }
  }

  /** From the 25th on, the reconciliation date is the first day of the next month. */
  lemma ReconcileLate(p: ValidDate)
    requires p.day >= 25
    ensures Ordinal(Reconcile(p)) == Ordinal(p) + DaysInMonth(p.year, p.month) - p.day + 1
  {
    if p.month == 12 {
      YearIsTwelveMonths(p.year);
      assert DaysBeforeYear(p.year + 1) == DaysBeforeYear(p.year) + DaysInYear(p.year);
      assert Reconcile(p) == Date(p.year + 1, 1, 1);
    } else {
      assert DaysBeforeMonth(p.year, p.month + 1) == DaysBeforeMonth(p.year, p.month) + DaysInMonth(p.year, p.month);
      assert Reconcile(p) == Date(p.year, p.month + 1, 1);
    }
  }

  // ---------------------------------------------------------------------------
  // the posting-date fill
  // ---------------------------------------------------------------------------

  /** `np.where(开支票日期.notna(), 开支票日期, 发票日期 + 10 days)`. */
  function FilledPosting(r: Row): (p: Option<ValidDate>)
  {
    if r.chequeDate.Some? then r.chequeDate
    else if r.invoiceDate.Some? then Some(AddDays(r.invoiceDate.value, 10))
    else None
  }

  /** The posting date is the cheque date when there is one, else ten days after the invoice, else missing. */
  lemma FilledPostingRule(r: Row)
    ensures r.chequeDate.Some? ==> FilledPosting(r) == r.chequeDate
    ensures r.chequeDate.None? && r.invoiceDate.Some? ==>
      FilledPosting(r).Some? && Ordinal(FilledPosting(r).value) == Ordinal(r.invoiceDate.value) + 10
    ensures FilledPosting(r).None? <==> r.chequeDate.None? && r.invoiceDate.None?
  {
  }

  /** Both passes: set the posting date, then derive the reconciliation date from it. */
  function FillPosting(r: Row): Row
  {
    var p := FilledPosting(r);
    r.(postingDate := p, reconcileDate := ReconcileDate(p))
  }

  /** Filling twice is filling once: the fill reads only the cheque and invoice dates it leaves alone. */
  lemma FillPostingIdempotent(r: Row)
    ensures FillPosting(FillPosting(r)) == FillPosting(r)
  {
  }

  predicate IsTargetRow(r: Row)
  {
    r.company in TargetCompanies
  }

  /**
    `mask_letter_cheque`: the cheque number is not the text `nan` (trimmed,
    any case), not blank, and starts with an ASCII letter.
  */
  predicate IsLetterCheque(cheque: string)
  {
    Lower(Trim(cheque)) != "nan" && Trim(cheque) != "" && StartsWithLetter(cheque)
  }

  /** The blank test is implied by the letter test; what remains is "starts with a letter and is not `nan`". */
  lemma LetterChequeTest(cheque: string)
    ensures IsLetterCheque(cheque) <==> StartsWithLetter(cheque) && Lower(Trim(cheque)) != "nan"
  {
    TrimEmpty(cheque);
    if StartsWithLetter(cheque) {
      assert !IsSpace(cheque[0]);
    }
  }

  /** The text a missing cheque number is loaded as starts with a letter, yet is no letter cheque. */
  lemma NanIsNoLetterCheque()
    ensures StartsWithLetter("nan") && !IsLetterCheque("nan")
  {
    UnpaddedLetterCheque("nan");
    assert Lower("nan") == "nan";
  }

  /** The same holds whatever the case of `nan`. */
  lemma MixedCaseNanIsNoLetterCheque()
    ensures StartsWithLetter("NaN") && !IsLetterCheque("NaN")
  {
    UnpaddedLetterCheque("NaN");
    var lowered := Lower("NaN");
    assert lowered[0] == 'n' && lowered[1] == 'a' && lowered[2] == 'n';
    assert lowered == "nan";
  }

  /** A debit reference such as `PPA-Beaudry` is a letter cheque. */
  lemma DebitReferenceIsLetterCheque()
    ensures IsLetterCheque("PPA-Beaudry")
  {
    UnpaddedLetterCheque("PPA-Beaudry");
    assert |Lower("PPA-Beaudry")| == 11;
  }

  /** For a number without white space at its ends, the test is "starts with a letter and is not `nan`". */
  lemma UnpaddedLetterCheque(cheque: string)
    requires |cheque| > 0 && !IsSpace(cheque[0]) && !IsSpace(cheque[|cheque| - 1])
    ensures IsLetterCheque(cheque) <==> Lower(cheque) != "nan" && IsLetter(cheque[0])
  {
    TrimUnpadded(cheque);
  }

  /** `mask_null_posting & mask_letter_cheque`. */
  predicate NeedsLetterFill(r: Row)
  {
    r.postingDate.None? && IsLetterCheque(r.chequeNo)
  }

  // ---------------------------------------------------------------------------
  // the paid / exclude / zero rules
  // ---------------------------------------------------------------------------

  /** `mask_final`: a reconciliation date in the window. */
  predicate ReconciledIn(r: Row, start: ValidDate, end: ValidDate)
  {
    InWindow(r.reconcileDate, start, end)
  }

  function ReconciledMask(start: ValidDate, end: ValidDate): Row -> bool
  {
    r => ReconciledIn(r, start, end)
  }

  /** `实际支付金额 := 发票金额` (a missing invoice amount makes the paid amount missing). */
  function MarkPaid(r: Row): Row
  {
    r.(paid := r.invoiceAmount)
  }

  /** `mask_to_exclude`: reconciled in the window and nothing left to pay (NaN − x is never 0). */
  predicate Excluded(r: Row, start: ValidDate, end: ValidDate)
  {
    ReconciledIn(r, start, end) && r.invoiceAmount.Some? && r.invoiceAmount.value - OrZero(r.paid) == 0
  }

  function KeepMask(start: ValidDate, end: ValidDate): Row -> bool
  {
    r => !Excluded(r, start, end)
  }

  predicate Unreconciled(r: Row)
  {
    r.reconcileDate.None?
  }

  function ZeroPaid(r: Row): Row
  {
    r.(paid := Some(0))
  }

  // ---------------------------------------------------------------------------
  // the pipeline, stage by stage
  // ---------------------------------------------------------------------------

  predicate InPurchase(r: Row)
  {
    InDepartments(r, PurchaseDepartments)
  }

  predicate NotCard(r: Row)
  {
    r.company !in CardCompanies
  }

  /** The purchase departments' rows, without the card-paid suppliers. */
  function Purchase(rows: seq<Row>): seq<Row>
  {
    Where(Where(rows, InPurchase), NotCard)
  }

  /** After the target-company pass and the letter-cheque pass. */
  function Prepared(rows: seq<Row>): seq<Row>
  {
    MapRows(MapRows(Purchase(rows), Masked(IsTargetRow, FillPosting)), Masked(NeedsLetterFill, FillPosting))
  }

  /** After `实际支付金额 := 发票金额` on the rows reconciled in the window. */
  function PaidMarked(rows: seq<Row>, start: ValidDate, end: ValidDate): seq<Row>
  {
    MapRows(Prepared(rows), Masked(ReconciledMask(start, end), MarkPaid))
  }

  /** `df_filtered`: the invoices dated in the window. */
  function Windowed(rows: seq<Row>, start: ValidDate, end: ValidDate): seq<Row>
  {
    Where(PaidMarked(rows, start, end), InvoiceMask(start, end))
  }

  /** The rows left after the exclusion, with the unreconciled ones' paid amount set to 0. */
  function Survivors(rows: seq<Row>, start: ValidDate, end: ValidDate): seq<Row>
  {
    MapRows(Where(Windowed(rows, start, end), KeepMask(start, end)), Masked(Unreconciled, ZeroPaid))
  }

  /** The departments picked in the sidebar, read off the prepared frame. */
  function Departments(rows: seq<Row>, chosen: seq<string>): seq<string>
  {
    SelectedDepartments(Prepared(rows), chosen)
  }

  /** `filtered`: the survivors dated in the window, amounts filled, of the picked departments. */
  function Reported(rows: seq<Row>, start: ValidDate, end: ValidDate, chosen: seq<string>): seq<Row>
  {
    Filtered(Survivors(rows, start, end), start, end, Departments(rows, chosen))
  }

  // ---------------------------------------------------------------------------
  // what each stage guarantees
  // ---------------------------------------------------------------------------

  /**
    After both passes, a target-company row and a row that needed the letter
    fill carry the filled posting date and its reconciliation date. Every
    other row is as loaded. The letter pass never changes what the target
    pass set.
  */
  lemma PreparedRows(rows: seq<Row>)
    ensures var p := Purchase(rows);
      var q := Prepared(rows);
      |q| == |p|
      && forall i :: 0 <= i < |p| ==>
           q[i] == (if IsTargetRow(p[i]) || NeedsLetterFill(p[i]) then FillPosting(p[i]) else p[i])
  {
    var p := Purchase(rows);
    forall i | 0 <= i < |p| && IsTargetRow(p[i])
      ensures Masked(NeedsLetterFill, FillPosting)(FillPosting(p[i])) == FillPosting(p[i])
    {
      FillPostingIdempotent(p[i]);
    }
  }

  /** A filled row's reconciliation date is missing or the 1st of a month. */
  lemma FilledReconcileIsFirstOfMonth(r: Row)
    ensures FillPosting(r).reconcileDate.None? || FillPosting(r).reconcileDate.value.day == 1
    ensures FillPosting(r).reconcileDate.None? <==> r.chequeDate.None? && r.invoiceDate.None?
  {
  }

  lemma PaidMarkedRows(rows: seq<Row>, start: ValidDate, end: ValidDate)
    ensures var m := PaidMarked(rows, start, end);
      forall i :: 0 <= i < |m| && ReconciledIn(m[i], start, end) ==> m[i].paid == m[i].invoiceAmount
  {
  }

  /** Every invoice of the window is paid in full once it is reconciled in the window. */
  lemma WindowedRows(rows: seq<Row>, start: ValidDate, end: ValidDate)
    ensures var w := Windowed(rows, start, end);
      forall i :: 0 <= i < |w| ==>
        InvoiceInWindow(w[i], start, end)
        && (ReconciledIn(w[i], start, end) ==> w[i].paid == w[i].invoiceAmount)
  {
    PaidMarkedRows(rows, start, end);
    WherePreserves(PaidMarked(rows, start, end), InvoiceMask(start, end),
      r => ReconciledIn(r, start, end) ==> r.paid == r.invoiceAmount);
  }

  /**
    Because reconciled rows were just marked paid, the exclusion drops exactly
    the invoices of the window that are reconciled in it and have an amount,
    and keeps all the others as often as they occur.
  */
  lemma ExclusionRule(rows: seq<Row>, start: ValidDate, end: ValidDate)
    ensures var w := Windowed(rows, start, end);
      var kept := Where(w, KeepMask(start, end));
      (forall i :: 0 <= i < |w| ==>
          (Excluded(w[i], start, end) <==> ReconciledIn(w[i], start, end) && w[i].invoiceAmount.Some?))
      && forall x :: multiset(kept)[x]
           == if ReconciledIn(x, start, end) && x.invoiceAmount.Some? then 0 else multiset(w)[x]
  {
    var w := Windowed(rows, start, end);
    WindowedRows(rows, start, end);
    forall i | 0 <= i < |w|
      ensures Excluded(w[i], start, end) <==> ReconciledIn(w[i], start, end) && w[i].invoiceAmount.Some?
    {
      ExcludedWhenPaid(w[i], start, end);
    }
    WhereCounts(w, KeepMask(start, end));
    forall x ensures multiset(Where(w, KeepMask(start, end)))[x]
      == if ReconciledIn(x, start, end) && x.invoiceAmount.Some? then 0 else multiset(w)[x]
    {
      if x in multiset(w) {
        assert x in w;
        ExcludedWhenPaid(x, start, end);
      }
    }
  }

  /** A reconciled row marked paid is excluded exactly when it has an invoice amount. */
  lemma ExcludedWhenPaid(r: Row, start: ValidDate, end: ValidDate)
    requires ReconciledIn(r, start, end) ==> r.paid == r.invoiceAmount
    ensures Excluded(r, start, end) <==> ReconciledIn(r, start, end) && r.invoiceAmount.Some?
  {
  }

  /**
    What survives is dated in the window. A survivor with an invoice amount is
    not reconciled in the window. One reconciled in the window has neither an
    invoice amount nor a paid amount. An unreconciled one has paid 0.
  */
  lemma SurvivorRows(rows: seq<Row>, start: ValidDate, end: ValidDate)
    ensures var z := Survivors(rows, start, end);
      forall i :: 0 <= i < |z| ==>
        InvoiceInWindow(z[i], start, end)
        && (z[i].invoiceAmount.Some? ==> !ReconciledIn(z[i], start, end))
        && (ReconciledIn(z[i], start, end) ==> z[i].invoiceAmount.None? && z[i].paid.None?)
        && (z[i].reconcileDate.None? ==> z[i].paid == Some(0))
  {
    var w := Windowed(rows, start, end);
    var paidRule: Row -> bool := r => InvoiceInWindow(r, start, end) && (ReconciledIn(r, start, end) ==> r.paid == r.invoiceAmount);
    WindowedRows(rows, start, end);
    WherePreserves(w, KeepMask(start, end), paidRule);
    var kept := Where(w, KeepMask(start, end));
    var z := Survivors(rows, start, end);
    forall i | 0 <= i < |z|
      ensures InvoiceInWindow(z[i], start, end)
      ensures z[i].invoiceAmount.Some? ==> !ReconciledIn(z[i], start, end)
      ensures ReconciledIn(z[i], start, end) ==> z[i].invoiceAmount.None? && z[i].paid.None?
      ensures z[i].reconcileDate.None? ==> z[i].paid == Some(0)
    {
      var k := kept[i];
      assert KeepMask(start, end)(k);
      assert paidRule(k);
      assert z[i] == Masked(Unreconciled, ZeroPaid)(k);
      MaskedApply(Unreconciled, ZeroPaid, k);
    }
  }

  /** The second invoice-date filter of the report finds nothing left to remove. */
  lemma SecondTimeFilterKeepsAll(rows: seq<Row>, start: ValidDate, end: ValidDate)
    ensures Where(Survivors(rows, start, end), InvoiceMask(start, end)) == Survivors(rows, start, end)
  {
    SurvivorRows(rows, start, end);
    WhereAll(Survivors(rows, start, end), InvoiceMask(start, end));
  }

  /** The rows of every stage belong to a purchase department. */
  lemma PaidMarkedInPurchase(rows: seq<Row>, start: ValidDate, end: ValidDate)
    ensures var m := PaidMarked(rows, start, end);
      forall i :: 0 <= i < |m| ==> InPurchase(m[i])
  {
    var p1 := Where(rows, InPurchase);
    WherePreserves(p1, NotCard, InPurchase);
    var p := Purchase(rows);
    var m1 := MapRows(p, Masked(IsTargetRow, FillPosting));
    var m2 := MapRows(m1, Masked(NeedsLetterFill, FillPosting));
    var m := PaidMarked(rows, start, end);
    assert m2 == Prepared(rows);
    forall i | 0 <= i < |m| ensures InPurchase(m[i]) {
      MaskedApply(IsTargetRow, FillPosting, p[i]);
      MaskedApply(NeedsLetterFill, FillPosting, m1[i]);
      MaskedApply(ReconciledMask(start, end), MarkPaid, m2[i]);
    }
  }

  lemma SurvivorsInPurchase(rows: seq<Row>, start: ValidDate, end: ValidDate)
    ensures var z := Survivors(rows, start, end);
      forall i :: 0 <= i < |z| ==> InPurchase(z[i])
  {
    PaidMarkedInPurchase(rows, start, end);
    WherePreserves(PaidMarked(rows, start, end), InvoiceMask(start, end), InPurchase);
    var w := Windowed(rows, start, end);
    WherePreserves(w, KeepMask(start, end), InPurchase);
    var kept := Where(w, KeepMask(start, end));
    var z := Survivors(rows, start, end);
    forall i | 0 <= i < |z| ensures InPurchase(z[i]) {
      MaskedApply(Unreconciled, ZeroPaid, kept[i]);
    }
  }

  /** Every reported invoice belongs to a purchase department. */
  lemma ReportedInPurchase(rows: seq<Row>, start: ValidDate, end: ValidDate, chosen: seq<string>)
    ensures var f := Reported(rows, start, end, chosen);
      forall i :: 0 <= i < |f| ==> InPurchase(f[i])
  {
    var z := Survivors(rows, start, end);
    SurvivorsInPurchase(rows, start, end);
    WherePreserves(z, InvoiceMask(start, end), InPurchase);
    var t := TimeFiltered(z, start, end);
    WherePreserves(t, r => InDepartments(r, Departments(rows, chosen)), InPurchase);
  }

  // ---------------------------------------------------------------------------
  // summary and Hors Taxes
  // ---------------------------------------------------------------------------

  /** 发票金额, 实际支付金额, 应付未付差额, TPS, TVQ. */
  function ComptaColumns(): seq<Row -> int>
  {
    [InvoiceCol, PaidCol, UnpaidCol, TpsCol, TvqCol]
  }

  function ComptaSummary(rows: seq<Row>, start: ValidDate, end: ValidDate, chosen: seq<string>): seq<SummaryLine>
  {
    Summary(Reported(rows, start, end, chosen), DeptKey, ComptaColumns())
  }

  /** The summary's Hors Taxes: 应付未付差额 − TPS − TVQ of the line (a line lacking the columns counts 0). */
  function SummaryHorsTaxes(line: SummaryLine): int
  {
    if |line.sums| == 5 then line.sums[2] - line.sums[3] - line.sums[4] else 0
  }

  /** The unpaid amount net of both taxes, row by row. */
  function NetUnpaidCol(r: Row): int
  {
    UnpaidCol(r) - TpsCol(r) - TvqCol(r)
  }

  lemma ColumnSumNet(rows: seq<Row>)
    ensures ColumnSum(rows, NetUnpaidCol)
         == ColumnSum(rows, UnpaidCol) - ColumnSum(rows, TpsCol) - ColumnSum(rows, TvqCol)
  {
    var lessTps: Row -> int := r => UnpaidCol(r) - TpsCol(r);
    ColumnSumDifference(rows, UnpaidCol, TpsCol, lessTps);
    ColumnSumDifference(rows, lessTps, TvqCol, NetUnpaidCol);
  }

  /**
    One line per picked department with unpaid invoices, holding its sums,
    then 总计 with the sums over all of them. Every line's Hors Taxes is the
    net unpaid amount of its rows, so the 总计's Hors Taxes is the sum over
    every reported row.
  */
  lemma ComptaSummaryFacts(rows: seq<Row>, start: ValidDate, end: ValidDate, chosen: seq<string>)
    ensures var f := Reported(rows, start, end, chosen);
      var s := ComptaSummary(rows, start, end, chosen);
      var keys := Keys(f, DeptKey);
      |s| == |keys| + 1
      && (forall i :: 0 <= i < |keys| ==>
            s[i] == GroupLine(keys[i], Sums(Group(f, DeptKey, keys[i]), ComptaColumns()))
            && SummaryHorsTaxes(s[i]) == ColumnSum(Group(f, DeptKey, keys[i]), NetUnpaidCol))
      && s[|keys|] == TotalLine(Sums(f, ComptaColumns()))
      && SummaryHorsTaxes(s[|keys|]) == ColumnSum(f, NetUnpaidCol)
  {
    var f := Reported(rows, start, end, chosen);
    FilteredRows(Survivors(rows, start, end), start, end, Departments(rows, chosen));
    HorsTaxesSummary(f);
  }

  lemma HorsTaxesSummary(f: seq<Row>)
    requires forall i :: 0 <= i < |f| ==> f[i].dept.Some?
    ensures var s := Summary(f, DeptKey, ComptaColumns());
      var keys := Keys(f, DeptKey);
      |s| == |keys| + 1
      && (forall i :: 0 <= i < |keys| ==>
            s[i] == GroupLine(keys[i], Sums(Group(f, DeptKey, keys[i]), ComptaColumns()))
            && SummaryHorsTaxes(s[i]) == ColumnSum(Group(f, DeptKey, keys[i]), NetUnpaidCol))
      && s[|keys|] == TotalLine(Sums(f, ComptaColumns()))
      && SummaryHorsTaxes(s[|keys|]) == ColumnSum(f, NetUnpaidCol)
  {
    var keys := Keys(f, DeptKey);
    KeyedAll(f, DeptKey);
    SummaryTotals(f, DeptKey, ComptaColumns());
    LineHorsTaxes(f);
    forall i | 0 <= i < |keys|
      ensures SummaryHorsTaxes(GroupLine(keys[i], Sums(Group(f, DeptKey, keys[i]), ComptaColumns())))
           == ColumnSum(Group(f, DeptKey, keys[i]), NetUnpaidCol)
    {
      LineHorsTaxes(Group(f, DeptKey, keys[i]));
    }
  }

  /** A line holding the sums of some rows has the Hors Taxes of those rows. */
  lemma LineHorsTaxes(g: seq<Row>)
    ensures SummaryHorsTaxes(GroupLine("", Sums(g, ComptaColumns()))) == ColumnSum(g, NetUnpaidCol)
    ensures forall k :: SummaryHorsTaxes(GroupLine(k, Sums(g, ComptaColumns()))) == ColumnSum(g, NetUnpaidCol)
    ensures SummaryHorsTaxes(TotalLine(Sums(g, ComptaColumns()))) == ColumnSum(g, NetUnpaidCol)
  {
    ColumnSumNet(g);
  }

  // ---------------------------------------------------------------------------
  // the detail table
  // ---------------------------------------------------------------------------

  /** The detail as intended: every department's companies, its 汇总 line, then 总计. */
  function ComptaDetail(rows: seq<Row>, start: ValidDate, end: ValidDate, chosen: seq<string>): seq<Line<Row>>
  {
    Detail(Reported(rows, start, end, chosen), DeptKey, Some(CompanyKey), ComptaColumns())
  }

  /**
    The detail as written: setting the 总计 line's 银行对账日期 writes to
    `subtotal`, a name only the department loop binds, so with no department
    group the report stops with an error (`None`) instead of showing 总计.
  */
  function ComptaDetailAsWritten(f: seq<Row>): Option<seq<Line<Row>>>
  {
    if Keys(f, DeptKey) == [] then None
    else Some(Detail(f, DeptKey, Some(CompanyKey), ComptaColumns()))
  }

  /** An empty window (or no invoice of a picked department) makes the written detail fail. */
  lemma EmptyReportFails()
    ensures ComptaDetailAsWritten([]) == None
    ensures Detail([], DeptKey, Some(CompanyKey), ComptaColumns()) == [GrandTotal([0, 0, 0, 0, 0])]
  {
    var empty: seq<Row> := [];
    var keys := Keys(empty, DeptKey);
    var sums := Sums(empty, ComptaColumns());
    assert |sums| == 5 && forall j :: 0 <= j < 5 ==> sums[j] == 0;
    assert sums == [0, 0, 0, 0, 0];
  }

  /** Whenever the written detail produces a table at all, it is the intended one. */
  lemma AsWrittenAgreesWhenItRuns(rows: seq<Row>, start: ValidDate, end: ValidDate, chosen: seq<string>)
    ensures var f := Reported(rows, start, end, chosen);
      ComptaDetailAsWritten(f).Some? <==> |f| > 0
    ensures var f := Reported(rows, start, end, chosen);
      ComptaDetailAsWritten(f).Some? ==> ComptaDetailAsWritten(f).value == ComptaDetail(rows, start, end, chosen)
  {
    var f := Reported(rows, start, end, chosen);
    FilteredRows(Survivors(rows, start, end), start, end, Departments(rows, chosen));
    if |f| > 0 {
      assert f[0].dept.value in Keys(f, DeptKey);
    }
  }

  /**
    The corrected detail always ends with 总计. It lists each reported
    invoice once, and its 汇总 lines add up to the 总计 line.
  */
  lemma ComptaDetailFacts(rows: seq<Row>, start: ValidDate, end: ValidDate, chosen: seq<string>)
    ensures var f := Reported(rows, start, end, chosen);
      var d := ComptaDetail(rows, start, end, chosen);
      multiset(ItemRows(d)) == multiset(f)
      && d[|d| - 1] == GrandTotal(Sums(f, ComptaColumns()))
      && forall j :: 0 <= j < 5 ==> SubtotalColumn(d, j) == d[|d| - 1].sums[j]
  {
    var f := Reported(rows, start, end, chosen);
    FilteredRows(Survivors(rows, start, end), start, end, Departments(rows, chosen));
    KeyedAll(f, DeptKey);
    Tables.DetailFacts(f, DeptKey, Some(CompanyKey), ComptaColumns());
  }

  /** The detail's Hors Taxes: 发票金额 − TPS − TVQ (a missing tax as 0), from the row or the line's sums. */
  function DetailHorsTaxes(line: Line<Row>): int
  {
    match line
    case Item(r) => InvoiceCol(r) - TpsCol(r) - TvqCol(r)
    case Subtotal(_, sums) => if |sums| == 5 then sums[0] - sums[3] - sums[4] else 0
    case GrandTotal(sums) => if |sums| == 5 then sums[0] - sums[3] - sums[4] else 0
  }

  /**
    The two tables' Hors Taxes differ. The detail nets the taxes off the
    invoice amount, the summary off the unpaid difference. So the detail's
    总计 Hors Taxes exceeds the summary's by the total paid.
  */
  lemma HorsTaxesBases(rows: seq<Row>, start: ValidDate, end: ValidDate, chosen: seq<string>)
    ensures var s := ComptaSummary(rows, start, end, chosen);
      var d := ComptaDetail(rows, start, end, chosen);
      DetailHorsTaxes(d[|d| - 1]) == SummaryHorsTaxes(s[|s| - 1]) + s[|s| - 1].sums[1]
  {
    var f := Reported(rows, start, end, chosen);
    ComptaSummaryFacts(rows, start, end, chosen);
    ComptaDetailFacts(rows, start, end, chosen);
    ColumnSumDifference(f, InvoiceCol, PaidCol, UnpaidCol);
  }

  /** 银行对账日期 as the detail shows it: the row's date as `YYYY-MM-DD`, missing on 汇总 and 总计 lines. */
  function LineReconcileDate(line: Line<Row>): (s: Option<string>)
    ensures !line.Item? ==> s.None?
    ensures line.Item? ==> (s.Some? <==> line.row.reconcileDate.Some?)
  {
    match line
    case Item(r) => if r.reconcileDate.Some? then Some(FormatDate(r.reconcileDate.value)) else None
    case _ => None
  }

  /** No purchase department's name looks like a subtotal or the total, so invoice lines are never highlighted. */
  lemma PurchaseLinesPlain(d: string)
    requires d in PurchaseDepartments
    ensures MarkOf(Some(d)) == Plain
  {
  }

  // ---------------------------------------------------------------------------
  // the report, as the page computes it
  // ---------------------------------------------------------------------------

  method CopyToFrame(s: seq<Row>) returns (a: array<Row>)
    ensures fresh(a) && a[..] == s
  {
    a := new Row[|s|](i requires 0 <= i < |s| => s[i]);
  }

  /**
    `ap_unpaid_query_compta`: both fill passes and the paid marking change
    the frame in place. The detail is then built group by group.
  */
  method ComptaReport(rows: seq<Row>, start: ValidDate, end: ValidDate, chosen: seq<string>)
    returns (summary: seq<SummaryLine>, detail: seq<Line<Row>>)
    ensures summary == ComptaSummary(rows, start, end, chosen)
    ensures detail == ComptaDetail(rows, start, end, chosen)
  {
    var df := CopyToFrame(Purchase(rows));
    AssignWhere(df, IsTargetRow, FillPosting);
    AssignWhere(df, NeedsLetterFill, FillPosting);
    var departments := SelectedDepartments(df[..], chosen);
    AssignWhere(df, ReconciledMask(start, end), MarkPaid);
    var kept := Where(Where(df[..], InvoiceMask(start, end)), KeepMask(start, end));
    var survivors := CopyToFrame(kept);
    AssignWhere(survivors, Unreconciled, ZeroPaid);
    var filtered := Filtered(survivors[..], start, end, departments);
    summary := Summary(filtered, DeptKey, ComptaColumns());
    detail := BuildNestedDetail(filtered, DeptKey, CompanyKey, ComptaColumns());
  }
}
