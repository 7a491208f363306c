/**
  One line of the supplier ledger: an invoice of a supplier, booked to a
  department, and the cheque that paid it (if any). Amounts are in cents;
  a missing amount or date is `None` (NaN / NaT). The loader turns the
  cheque number, the invoice number and the company into text, so a missing
  one of those is the text `nan` rather than `None`.
*/
module Ledger {

  import opened Common
  import opened Dates

  datatype Row = Row(
    company: string,                   // 公司名称
    dept: Option<string>,              // 部门
    invoiceNo: string,                 // 发票号
    invoiceDate: Option<ValidDate>,    // 发票日期
    invoiceAmount: Option<int>,        // 发票金额
    tps: Option<int>,                  // TPS (federal sales tax)
    tvq: Option<int>,                  // TVQ (Quebec sales tax)
    chequeNo: string,                  // 付款支票号
    paid: Option<int>,                 // 实际支付金额
    chequeDate: Option<ValidDate>,     // 开支票日期
    reconcileDate: Option<ValidDate>,  // 银行对账日期
    postingDate: Option<ValidDate>     // 银行过账日期
  )

  // group keys
  function DeptKey(r: Row): Option<string> { r.dept }
  function CompanyKey(r: Row): Option<string> { Some(r.company) }
  function ChequeKey(r: Row): Option<string> { Some(r.chequeNo) }

  // amount columns as `sum()` reads them (a missing amount adds nothing)
  function InvoiceCol(r: Row): int { OrZero(r.invoiceAmount) }
  function PaidCol(r: Row): int { OrZero(r.paid) }
  function TpsCol(r: Row): int { OrZero(r.tps) }
  function TvqCol(r: Row): int { OrZero(r.tvq) }

  /** The paid, TPS and TVQ columns by position: 0, 1, 2. */
  function RowCol(j: nat): Row -> int
  {
    if j == 0 then PaidCol else if j == 1 then TpsCol else TvqCol
  }

  // other columns, as functions of a row
  function InvoiceNoCol(r: Row): string { r.invoiceNo }
  function ChequeDateCol(r: Row): Option<ValidDate> { r.chequeDate }
  function ReconcileCol(r: Row): Option<ValidDate> { r.reconcileDate }

  /** 应付未付差额 / 差额: the invoice amount less the amount paid, a missing one counting as 0. */
  function UnpaidCol(r: Row): (d: int)
    ensures d == InvoiceCol(r) - PaidCol(r)
  {
    OrZero(r.invoiceAmount) - OrZero(r.paid)
  }

  /** `fillna(0)` on the invoice and paid columns. */
  function FillAmounts(r: Row): (f: Row)
    ensures f.invoiceAmount.Some? && f.paid.Some?
    ensures UnpaidCol(f) == UnpaidCol(r)
    ensures f == r.(invoiceAmount := f.invoiceAmount, paid := f.paid)
  {
    r.(invoiceAmount := Some(OrZero(r.invoiceAmount)), paid := Some(OrZero(r.paid)))
  }

  /** `df['部门'].isin(departments)`: never true for a missing department. */
  predicate InDepartments(r: Row, departments: seq<string>)
  {
    r.dept.Some? && r.dept.value in departments
  }

  /** The department column. */
  function DeptColumn(rows: seq<Row>): (c: seq<Option<string>>)
    ensures |c| == |rows|
    ensures forall i :: 0 <= i < |rows| ==> c[i] == rows[i].dept
  {
    seq(|rows|, i requires 0 <= i < |rows| => rows[i].dept)
  }

  /** A lookup's result line: the ledger row, its 差额, and its two dates as `YYYY-MM-DD` text. */
  datatype ShownRow = ShownRow(row: Row, diff: int, invoiceDateText: Option<string>, chequeDateText: Option<string>)

  /** The frame before the lookup adds its columns. */
  function Unshown(r: Row): ShownRow { ShownRow(r, 0, None, None) }

  /** `pd.to_datetime(...).dt.strftime('%Y-%m-%d')`: a date becomes its text, NaT stays missing. */
  function DateText(d: Option<ValidDate>): (s: Option<string>)
    ensures s.None? <==> d.None?
  {
    if d.Some? then Some(FormatDate(d.value)) else None
  }

  /** The text reads back as the date it came from (for years below 10000). */
  lemma DateTextRoundTrip(d: Option<ValidDate>)
    requires d.Some? ==> d.value.year < 10000
    ensures DateText(d).Some? ==> ParseDate(DateText(d).value) == Some(d.value)
  {
    if d.Some? {
      FormatDateRoundTrip(d.value);
    }
  }

  /** The two date columns the lookups reformat: 0 is 发票日期, 1 is 开支票日期. */
  function FormatDateColumn(j: nat): ShownRow -> ShownRow
  {
    (s: ShownRow) =>
      if j == 0 then s.(invoiceDateText := DateText(s.row.invoiceDate))
      else s.(chequeDateText := DateText(s.row.chequeDate))
  }

  /** `filtered['差额'] = 发票金额.fillna(0) - 实际支付金额.fillna(0)`. */
  function WithDiff(s: ShownRow): ShownRow { s.(diff := UnpaidCol(s.row)) }
}
