# Supermarket back-office ledger: business rules in Dafny

This project models the business rules of a supermarket's back-office
ledger viewer: its supplier ledger and its cash-refund book. Each ledger row
is one supplier invoice: company, department, invoice number, invoice date,
invoice amount, TPS, TVQ, payment cheque number, amount paid, cheque date,
bank-reconciliation date and bank-posting date. The pages compute:

- unpaid accounts payable, by department, with department subtotals and a grand total (`ApUnpaid`);
- the accountant's version of that report (`ApUnpaidCompta`). It fills the bank-posting
  and bank-reconciliation dates of automatic-debit suppliers and letter cheques, marks
  invoices reconciled inside the window as paid, and drops the fully reconciled ones;
- the cheque ledger (`ChequeLedger`): one line per valid cheque, digit-led cheques only,
  sorted by number, with a 总计 line, the reconciliation-date choice, the matching key
  of the export, and the automatic-payment (PPA / EFT / DEBIT) view;
- the paid-cheques report (`PaidCheques`), grouped by department, cheque and company;
- the cash-refund book (`CashRefund`): a monthly pivot over 18 expense categories with
  total rows first and last, then per-cheque tables for one month;
- the cheque-number and invoice-number look-ups (`ChequeLookup`, `InvoiceLookup`);
- the sidebar's department selection (`Sidebar`).

Amounts are integer cents, and a missing amount (NaN) is `None`. Dates are valid
Gregorian dates counted from 0001-01-01, which was a Monday. A missing
date (NaT) is `None`. Identifiers are strings, and the loader turns a
missing identifier into the text `"nan"`. The generic table operations
(`Tables`) model pandas' boolean filters, `groupby(...).sum()` (sorted
keys, missing keys dropped), the subtotal/total report layout and the row
highlighting, once for all pages.

## Model

| member | source | states |
|---|---|---|
| Sidebar.AllDepartments | System/ui/sidebar.py:17 | the department list is sorted, has no duplicates, and holds exactly the departments present in the ledger (missing departments dropped) |
| Sidebar.DepartmentOptions | System/ui/sidebar.py:18 | the options are 全部 followed by every department |
| Sidebar.SelectedDepartments | System/ui/sidebar.py:22-25 | choosing 全部, or choosing nothing, yields every department; otherwise the choice itself |
| Sidebar.SelectionNamesDepartments | System/ui/sidebar.py:16-25 | when only offered options are chosen, every selected department is a real department of the ledger |
| Sidebar.ChoosingAllKeepsEveryDepartment | System/ui/sidebar.py:22-25 | with 全部 or no choice, the department filter keeps exactly the rows that have a department |
| Ledger.UnpaidCol | System/modules/ap_unpaid.py:40-42 | 应付未付差额 is the invoice amount less the amount paid, each missing amount counting as 0 |
| Ledger.FillAmounts | System/modules/cheque_lookup.py:38-39 | after `fillna(0)` both amounts are present, the difference is unchanged and no other column changes |
| Ledger.DateText | System/modules/invoice_lookup.py:42-43 | a date becomes its `%Y-%m-%d` text and a missing date stays missing |
| Ledger.DateTextRoundTrip | System/modules/invoice_lookup.py:42-43 | the date text parses back to the same date (years below 10000) |
| Dates.AddDays | System/modules/ap_unpaid_compta.py:119 | adding n days moves the day count forward by exactly n |
| Dates.SubtractDays | System/modules/ap_unpaid.py:205 | subtracting n days moves the day count back by exactly n |
| Dates.Weekday | System/modules/ap_unpaid.py:205 | the weekday is a number below 7, Monday being 0 |
| Dates.WeekdayCount | System/modules/ap_unpaid.py:205 | 0001-01-01 is a Monday (weekday 0), and n days after any date the weekday has moved on by n, modulo 7 |
| Dates.OrderMatchesOrdinal | System/modules/ap_unpaid.py:37-38 | comparing dates is comparing their day counts, in both directions, and equal dates have equal counts |
| Dates.FormatDate | System/modules/ap_unpaid.py:107-109 | `%Y-%m-%d` text is 10 characters with dashes at positions 4 and 7 |
| Dates.FormatDateRoundTrip | System/modules/ap_unpaid.py:107-109 | the formatted date parses back to the same date |
| Dates.FormatDateInjective | System/modules/ap_unpaid.py:107-109 | two dates have the same text if and only if they are equal |
| Dates.ShownDate | System/modules/ap_unpaid.py:107-109 | a missing date is shown as the empty text, a present one as a 10-character date |
| Dates.ShownDateInjective | System/modules/ap_unpaid.py:107-109 | two possibly missing dates are shown alike if and only if they are equal |
| Dates.MonthLabel | System/modules/ap_unpaid.py:158 | the `to_period('M')` label is 7 characters with a dash at position 4 |
| Text.TrimFacts | System/modules/cheque_lookup.py:15 | `strip()` never lengthens the text and leaves no `isspace()` character (ASCII 9-13 and 28-32, U+0085, U+00A0, U+1680, U+2000-U+200A, U+2028, U+2029, U+202F, U+205F, U+3000) at either end |
| Text.TrimEmpty | System/modules/cheque_lookup.py:15 | the stripped text is empty if and only if every character is an `isspace()` character |
| Text.TrimUnpadded | System/modules/cheque_ledger_query.py:13 | text without an `isspace()` character at either end is unchanged by `strip()` |
| Text.Lower | System/modules/cheque_ledger_query.py:13 | `lower()` keeps the length and lowers each character |
| Text.ContainsIffOccurs | System/modules/cheque_lookup.py:32 | a plain-text search holds if and only if the searched text occurs at some position |
| Text.ContainsOwnTrim | System/modules/invoice_lookup.py:31 | a value always contains its own stripped text as plain text, ignoring ASCII case |
| Text.PlainTrim | System/modules/invoice_lookup.py:31 | stripping a text free of regex syntax leaves it free of regex syntax |
| Text.LeadingDigits | System/modules/cheque_ledger_query.py:53 | `^(\d+)` yields the longest all-digit prefix |
| Text.DigitsOf | System/modules/cheque_ledger_query.py:112 | `filter(str.isdigit, …)` keeps only digits, taken from the text; an all-digit text is kept whole and a text without digits gives the empty text |
| Text.DigitsOfAppend | System/modules/cheque_ledger_query.py:112 | filtering two joined texts joins their filtered texts, so together with the one-character cases every digit is kept, in order, and every other character dropped |
| Text.NatTextValue | System/modules/cash_refund.py:38-44 | the decimal text of a number reads back as that number |
| Text.PaddedDigitsValue | System/modules/ap_unpaid_compta.py:92 | the zero-padded `{month:02d}` text reads back as the month |
| Text.CentsTextRoundTrip | System/modules/cheque_ledger_query.py:112 | the `.2f` text of an amount parses back to the same amount |
| Text.FloatTextCharacters | System/modules/cheque_ledger_query.py:30 | an amount's text has only digits, the point and the minus sign, never `+` |
| Text.SplitJoin | System/modules/cheque_ledger_query.py:29-30 | splitting a `join` by its separator gives back the pieces when no piece holds the separator |
| Text.SplitAtFirstPiece | System/modules/cheque_ledger_query.py:112 | the text before the first separator is the first piece, and the rest follows it |
| Text.LexLeTotal | System/modules/cheque_lookup.py:19 | text order compares every two texts |
| Text.LexLeTransitive | System/modules/cheque_lookup.py:19 | text order is transitive |
| Text.LexLeAntisymmetric | System/modules/cheque_lookup.py:19 | text order is antisymmetric |
| Sorting.Unique | System/modules/cheque_lookup.py:15 | `unique()` has no duplicates and holds exactly the values of the column |
| Sorting.SortByKey | System/modules/cheque_ledger_query.py:56 | sorting by a numeric key is ordered and a permutation |
| Sorting.SortText | System/modules/cheque_lookup.py:19 | `sorted` of texts is ordered and a permutation |
| Sorting.SortedDistinct | System/ui/sidebar.py:17 | sorted unique values are ordered, distinct and exactly the given values |
| Sorting.SplitIdsIsPermutation | System/modules/invoice_lookup.py:16-17 | the digit-only and the other identifiers together are all identifiers |
| Sorting.OrderIds | System/modules/invoice_lookup.py:16-19 | the ordering is a permutation: digit-only identifiers first by value, then the others in text order |
| Tables.Where | System/modules/ap_unpaid.py:45 | a boolean filter keeps order and only the rows that pass |
| Tables.WhereCounts | System/modules/ap_unpaid.py:45 | a filter keeps each passing row as often as it occurs and drops every other |
| Tables.WhereMember | System/modules/cheque_lookup.py:32 | a row is in the filtered table if and only if it is in the table and passes |
| Tables.ColumnSumPermutation | System/modules/ap_unpaid.py:97 | a column sum does not depend on row order |
| Tables.Keys | System/modules/ap_unpaid.py:82 | `groupby` keys are sorted, distinct and exactly the non-missing keys present |
| Tables.GroupSumsAddUp | System/modules/ap_unpaid.py:53-58 | the group sums add up to the sum over the rows that have a key |
| Tables.SummaryTotals | System/modules/ap_unpaid.py:48-59 | the summary has one line per key with that group's sums, then a 总计 line with the sums over all keyed rows |
| Tables.SummaryMapped | System/modules/cheque_lookup.py:38-47 | rewriting rows in a way that keeps their key and summed columns leaves the summary unchanged |
| Tables.DetailFacts | System/modules/ap_unpaid.py:82-102 | the detail lists every keyed row once, its last line is the grand total, and the subtotals of each column add up to that column's total |
| Tables.BlockFacts | System/modules/ap_unpaid.py:82-94 | one department's block lists exactly that department's rows, then its 汇总 subtotal of them |
| Tables.BuildDetail | System/modules/paid_cheques.py:97-114 | the loop over departments builds exactly the detail report |
| Tables.BuildNestedDetail | System/modules/ap_unpaid.py:82-102 | the nested loop over departments and companies builds exactly the detail report |
| Tables.MarkOf | System/modules/ap_unpaid.py:12-19 | a label ending in 汇总 is shaded as a subtotal, and 总计 as a total |
| Tables.SummaryMark | System/modules/paid_cheques.py:55-59 | the total line of a summary is always shaded as a total, and no summary line as a subtotal |
| Tables.LineMarks | System/modules/paid_cheques.py:119-125 | detail subtotal lines are shaded as subtotals and the grand total as a total |
| ApUnpaid.TimeFilteredRows | System/modules/ap_unpaid.py:36-42 | the time filter keeps exactly the rows whose invoice date is in the window; both amounts are then present and the difference is invoice less paid |
| ApUnpaid.FilteredRows | System/modules/ap_unpaid.py:45 | the department filter keeps exactly the windowed rows of the chosen departments |
| ApUnpaid.SummaryFacts | System/modules/ap_unpaid.py:48-59 | one line per department with its sums, then the 总计 line; the total's difference equals invoices less paid |
| ApUnpaid.UnpaidDetail | System/modules/ap_unpaid.py:82-102 | the department/company loop produces the detail report of the filtered rows |
| ApUnpaid.DetailFacts | System/modules/ap_unpaid.py:82-102 | the detail lists every filtered row once and ends in the grand total, which the subtotals add up to |
| ApUnpaid.DetailBlockFacts | System/modules/ap_unpaid.py:82-94 | each department block holds exactly that department's rows, then their subtotal |
| ApUnpaid.LineInvoiceDate | System/modules/ap_unpaid.py:107-109 | subtotal and total lines show no date; an invoice line shows its date or the empty text |
| ApUnpaid.MonthOf | System/modules/ap_unpaid.py:158 | a missing date gives the month text `NaT`, a present one a `YYYY-MM` label |
| ApUnpaid.MonthLabelMeansMonth | System/modules/ap_unpaid.py:158 | two dates have the same month label if and only if they share year and month |
| ApUnpaid.WeekStart | System/modules/ap_unpaid.py:205 | the week start is a Monday no later than the date and less than 7 days before it |
| ApUnpaid.WeekEnd | System/modules/ap_unpaid.py:206 | the week end is the Sunday 6 days after the week start |
| ApUnpaid.DateWithinItsWeek | System/modules/ap_unpaid.py:205-206 | every date lies between its week start and its week end |
| ApUnpaid.SameWeek | System/modules/ap_unpaid.py:205 | two dates share a week start if and only if they fall in the same Monday-based week |
| ApUnpaid.WeekLabelMeansWeek | System/modules/ap_unpaid.py:207 | the same week label means the same week |
| ApUnpaid.WeeksOfMonth | System/modules/ap_unpaid.py:218-222 | the weeks of a month are distinct, include the week of every row touching that month, and are each the week of such a row |
| ApUnpaid.WeeklyFilterIsWeekTest | System/modules/ap_unpaid.py:225-228 | the weekly filter keeps a row exactly when its week is one of the chosen weeks |
| ApUnpaid.MonthRowsInWeeklyFilter | System/modules/ap_unpaid.py:215-228 | every row with a date passes the weekly filter for its own month |
| ApUnpaid.ColourMap | System/modules/ap_unpaid.py:168-170 | each department is coloured `palette[i % len(palette)]` and nothing else is mapped |
| ApUnpaid.ColoursDistinct | System/modules/ap_unpaid.py:168-170 | with no more departments than colours, different departments get different colours |
| ApUnpaid.ChartDepartments | System/modules/ap_unpaid.py:168 | the chart departments are sorted, distinct and exactly those present |
| ApUnpaidCompta.Reconcile | System/modules/ap_unpaid_compta.py:83-92 | the reconciliation date is always the first of a month |
| ApUnpaidCompta.ReconcileDate | System/modules/ap_unpaid_compta.py:83-92 | a missing posting date gives a missing reconciliation date; a present one gives the first of a month |
| ApUnpaidCompta.ReconcileCycle | System/modules/ap_unpaid_compta.py:86-92 | posting by the 24th reconciles on the first of the same month; from the 25th, on the first of the next month, wrapping December into January |
| ApUnpaidCompta.ReconcileNearPosting | System/modules/ap_unpaid_compta.py:83-92 | the reconciliation date is at most 23 days before and at most 7 days after posting, and it is after posting exactly from the 25th |
| ApUnpaidCompta.FilledPostingRule | System/modules/ap_unpaid_compta.py:116-120 | the posting date is the cheque date when there is one, otherwise the invoice date plus 10 days, and missing only when both are |
| ApUnpaidCompta.FillPostingIdempotent | System/modules/ap_unpaid_compta.py:116-123 | filling the posting and reconciliation dates twice changes nothing more |
| ApUnpaidCompta.LetterChequeTest | System/modules/ap_unpaid_compta.py:139-144 | a letter cheque starts with an ASCII letter and is not `nan` once stripped and lowered |
| ApUnpaidCompta.NanIsNoLetterCheque | System/modules/ap_unpaid_compta.py:141 | the text `nan` starts with a letter but is not a letter cheque |
| ApUnpaidCompta.MixedCaseNanIsNoLetterCheque | System/modules/ap_unpaid_compta.py:141 | `NaN` is not a letter cheque either |
| ApUnpaidCompta.DebitReferenceIsLetterCheque | System/modules/ap_unpaid_compta.py:134-143 | a debit reference such as `PPA-Beaudry` is a letter cheque |
| ApUnpaidCompta.UnpaddedLetterCheque | System/modules/ap_unpaid_compta.py:139-144 | for text without blanks at its ends: a letter cheque if and only if it starts with a letter and is not `nan` in any case |
| ApUnpaidCompta.PreparedRows | System/modules/ap_unpaid_compta.py:113-160 | a purchase row is date-filled when its company is a target company or it is a letter cheque without a posting date, and kept as is otherwise |
| ApUnpaidCompta.FilledReconcileIsFirstOfMonth | System/modules/ap_unpaid_compta.py:123 | a filled reconciliation date is the first of a month, and missing only when the cheque and invoice dates both are |
| ApUnpaidCompta.PaidMarkedRows | System/modules/ap_unpaid_compta.py:197-209 | an invoice reconciled inside the window is marked as paid in full |
| ApUnpaidCompta.WindowedRows | System/modules/ap_unpaid_compta.py:188-232 | the windowed rows have their invoice date in the window, and those reconciled in it are paid in full |
| ApUnpaidCompta.ExclusionRule | System/modules/ap_unpaid_compta.py:243-258 | a row is excluded if and only if it is reconciled in the window and has an invoice amount; the rest are kept with their multiplicity |
| ApUnpaidCompta.SurvivorRows | System/modules/ap_unpaid_compta.py:258-264 | survivors are in the window, none with an amount is reconciled in it, and an unreconciled survivor has 0 paid |
| ApUnpaidCompta.SecondTimeFilterKeepsAll | System/modules/ap_unpaid_compta.py:279-282 | the second invoice-date filter keeps every survivor |
| ApUnpaidCompta.ReportedInPurchase | System/modules/ap_unpaid_compta.py:67-71 | every reported row is of a purchase department and not of a card-paid company |
| ApUnpaidCompta.ComptaSummaryFacts | System/modules/ap_unpaid_compta.py:292-309 | one line per department with its five sums and then the 总计 line; each line's Hors Taxes is its difference less TPS and TVQ |
| ApUnpaidCompta.HorsTaxesBases | System/modules/ap_unpaid_compta.py:309 | the detail total's Hors Taxes exceeds the summary total's by exactly the amount paid |
| ApUnpaidCompta.EmptyReportFails | System/modules/ap_unpaid_compta.py:355 | as written, an empty report fails; the corrected report is then a lone zero total |
| ApUnpaidCompta.AsWrittenAgreesWhenItRuns | System/modules/ap_unpaid_compta.py:332-356 | the as-written detail runs exactly when rows are reported, and then it equals the corrected one |
| ApUnpaidCompta.ComptaDetailFacts | System/modules/ap_unpaid_compta.py:332-356 | the detail lists every reported row once and ends in the grand total of the five columns, which the subtotals add up to |
| ApUnpaidCompta.LineReconcileDate | System/modules/ap_unpaid_compta.py:371 | subtotal and total lines have no reconciliation date; an invoice line has one exactly when its row does |
| ApUnpaidCompta.PurchaseLinesPlain | System/modules/ap_unpaid_compta.py:12-19 | no purchase department name is shaded |
| ApUnpaidCompta.ComptaReport | System/modules/ap_unpaid_compta.py:64-371 | the page's pipeline produces exactly the summary and the detail specified above |
| ChequeLedger.AggregateDept | System/modules/cheque_ledger_query.py:26-28 | a cheque line keeps the first company and the first non-missing department |
| ChequeLedger.AggregateAmounts | System/modules/cheque_ledger_query.py:30 | the invoice amounts cell splits on `+` into the sorted amounts of the cheque's rows |
| ChequeLedger.AggregateInvoices | System/modules/cheque_ledger_query.py:29 | the invoice numbers cell splits on `,` into the sorted invoice numbers of the cheque's rows |
| ChequeLedger.AggregateNet | System/modules/cheque_ledger_query.py:42 | a line's 税后金额 is the sum over its rows of paid less TPS less TVQ |
| ChequeLedger.GroupedLineFacts | System/modules/cheque_ledger_query.py:13-42 | each ledger line is of a valid cheque and sums exactly that cheque's rows |
| ChequeLedger.LedgerLinesFacts | System/modules/cheque_ledger_query.py:48-56 | only digit-led cheque lines stay, sorted by their leading number, each as often as it was grouped |
| ChequeLedger.LedgerColumnIsRowColumn | System/modules/cheque_ledger_query.py:33-56 | each amount column over the ledger lines equals the same column over the valid digit-led rows |
| ChequeLedger.Total | System/modules/cheque_ledger_query.py:215-227 | the 总计 line's 税后金额 is its paid less TPS less TVQ |
| ChequeLedger.TotalMatchesRows | System/modules/cheque_ledger_query.py:215-241 | the 总计 line equals the sums over the valid digit-led rows |
| ChequeLedger.OnlyTotalHighlighted | System/modules/cheque_ledger_query.py:301-304 | only the last line, the 总计, is shaded |
| ChequeLedger.ReconcileOptions | System/modules/cheque_ledger_query.py:88-89 | the choices are 全部 and then the sorted, distinct reconciliation dates shown |
| ChequeLedger.ReconcileSelection | System/modules/cheque_ledger_query.py:91-92 | 全部 keeps all lines; a date keeps exactly its lines, and an offered date keeps at least one |
| ChequeLedger.MatchKeyReadsBack | System/modules/cheque_ledger_query.py:111-114 | the matching key reads back as the cheque's digits and the amount paid |
| ChequeLedger.MatchKeyInjective | System/modules/cheque_ledger_query.py:111-114 | two lines share a key if and only if they share cheque digits and amount paid |
| ChequeLedger.AutoDebitRule | System/modules/cheque_ledger_query.py:153-178 | an automatic payment has a valid cheque and a company ending in `*` or a letter-led cheque |
| ChequeLedger.AutoDebitsFacts | System/modules/cheque_ledger_query.py:180-197 | there is the warning exactly when no row is an automatic payment; otherwise exactly those in the date window are shown |
| ChequeLedger.LedgerViewFacts | System/modules/cheque_ledger_query.py:70-229 | every mode but automatic payments shows the cheque table with its 总计, and showing all cheques totals the valid digit-led rows |
| PaidCheques.FilteredRows | System/modules/paid_cheques.py:31-36 | the filter keeps exactly the rows with a cheque date in the window and a chosen department |
| PaidCheques.ChoosingAllKeepsWindow | System/modules/paid_cheques.py:25-36 | with 全部 or no choice, every row in the window that has a department is kept |
| PaidCheques.SummaryFacts | System/modules/paid_cheques.py:39-52 | one line per department with its three sums, then the 总计 line |
| PaidCheques.TripleRowsCounts | System/modules/paid_cheques.py:84 | a (department, cheque, company) group holds exactly the rows with those three keys |
| PaidCheques.GroupedSound | System/modules/paid_cheques.py:83-93 | every grouped line aggregates a non-empty (department, cheque, company) group |
| PaidCheques.GroupedComplete | System/modules/paid_cheques.py:83-93 | every filtered row's group appears as a grouped line |
| PaidCheques.AggregateInvoices | System/modules/paid_cheques.py:86 | the invoice cell splits into the distinct invoice numbers of the group |
| PaidCheques.AggregateChequeDate | System/modules/paid_cheques.py:87 | a line's cheque date is its first row's, so it lies in the window |
| PaidCheques.GroupedSum | System/modules/paid_cheques.py:83-95 | grouping keeps every amount column's sum |
| PaidCheques.DeptLinesSum | System/modules/paid_cheques.py:98-100 | a department's lines sum to that department's rows |
| PaidCheques.SortChequesPermutation | System/modules/paid_cheques.py:77-81 | sorting cheques is a permutation |
| PaidCheques.SortChequesClasses | System/modules/paid_cheques.py:79-81 | numeric cheques come before the others |
| PaidCheques.SortChequesValues | System/modules/paid_cheques.py:80-81 | numeric cheques are in increasing value |
| PaidCheques.SortChequesKeepsTextOrder | System/modules/paid_cheques.py:80-81 | non-numeric cheques keep their relative order, since they share the key infinity |
| PaidCheques.PaidDetail | System/modules/paid_cheques.py:97-114 | the department loop builds exactly the detail report of the sorted lines |
| PaidCheques.DetailFacts | System/modules/paid_cheques.py:97-114 | the detail lists every grouped line once and ends in the grand total of the filtered rows, which the subtotals add up to |
| PaidCheques.DetailBlockFacts | System/modules/paid_cheques.py:98-106 | a department block holds exactly its lines, then its subtotal of that department's rows |
| PaidCheques.DetailDepartments | System/modules/paid_cheques.py:98 | the detail's departments are exactly those of the filtered rows |
| PaidCheques.DetailMark | System/modules/paid_cheques.py:119-125 | subtotals are shaded as subtotals, the total as a total, lines by their department label |
| CashRefund.ParseCode | System/modules/cash_refund.py:45 | a missing code gives no number and a digit text gives its value |
| CashRefund.ParseCodeSigned | System/modules/cash_refund.py:45 | a leading `+` or `-` is read as the number's sign |
| CashRefund.ParseCodeZeros | System/modules/cash_refund.py:45 | a whole number written with a point and zeros (`7.0`, `7.`) reads as that number |
| CashRefund.ParseCodeFraction | System/modules/cash_refund.py:45 | a number with a non-zero fraction gives no code |
| CashRefund.ParseCodeOfText | System/modules/cash_refund.py:45 | the text of a number parses back as that number |
| CashRefund.CoerceCode | System/modules/cash_refund.py:45 | overwriting 分类号码 leaves the number its text reads as (NaN when none) and changes no other column and no line's category |
| CashRefund.CoerceCodeIdempotent | System/modules/cash_refund.py:45 | rewriting an already numeric column changes nothing |
| CashRefund.CategoryOf | System/modules/cash_refund.py:38-46 | a code has a category name if and only if it is one of 1 to 18 |
| CashRefund.CategoryNameCode | System/modules/cash_refund.py:38-44 | each category name starts with its own code |
| CashRefund.CategoryOfInjective | System/modules/cash_refund.py:38-46 | different codes get different category names |
| CashRefund.BlankZeroCategories | System/modules/cash_refund.py:63-68 | the in-place loop blanks the zero category cells of every month row |
| CashRefund.BlankZerosFacts | System/modules/cash_refund.py:63-68 | a cell is blank if and only if it was missing or 0; other cells, the month and the amount columns are unchanged; blanking again changes nothing |
| CashRefund.CashSummary | System/modules/cash_refund.py:49-86 | the page builds exactly the summary table |
| CashRefund.SummaryFrame | System/modules/cash_refund.py:83-86 | the table is the total row, the month rows, and the same total row again |
| CashRefund.MonthRowsInOrder | System/modules/cash_refund.py:57-61 | one row per month present, in sorted month order |
| CashRefund.MonthRowsStrictlyIncreasing | System/modules/cash_refund.py:61 | the months strictly increase |
| CashRefund.MonthRowTotals | System/modules/cash_refund.py:57 | a month row's 总金额, TPS and TVQ are that month's sums |
| CashRefund.SummaryCells | System/modules/cash_refund.py:49-68 | a category cell is that month's net sum in the category, blank when that sum is 0 |
| CashRefund.SummaryTotals | System/modules/cash_refund.py:70-77 | the total row sums every month row, column by column |
| CashRefund.MonthSelection | System/modules/cash_refund.py:118 | the chosen month's rows are exactly the rows of that month |
| CashRefund.MonthDetailLines | System/modules/cash_refund.py:45-118 | the month's lines are exactly that month's sheet lines with 分类号码 rewritten as a number |
| CashRefund.ByReceiptDatePermutation | System/modules/cash_refund.py:128 | sorting by receipt date is a permutation |
| CashRefund.ByReceiptDateDatedFirst | System/modules/cash_refund.py:128 | rows with a receipt date come first |
| CashRefund.ByReceiptDateOrdered | System/modules/cash_refund.py:128 | dated rows are in increasing date order |
| CashRefund.ChequeTables | System/modules/cash_refund.py:121-149 | the loop builds one table per cheque, in cheque order, and the export is their concatenation |
| CashRefund.ChequeTableFacts | System/modules/cash_refund.py:128-144 | a cheque table starts with its 汇总 line summing the table's rows, which are that cheque's rows |
| CashRefund.ExportFacts | System/modules/cash_refund.py:121-149 | the export lists every row that has a cheque number once |
| CashRefund.ExportCodes | System/modules/cash_refund.py:45-149 | every line the cheque tables and the export list is a line of the chosen month, its 分类号码 shown as the rewritten number |
| CashRefund.MonthRowMarks | System/modules/cash_refund.py:11-27 | the first and last rows of the summary are shaded as totals |
| CashRefund.ChequeTableMarks | System/modules/cash_refund.py:11-27 | the 汇总 line of a cheque table is shaded as a subtotal; other lines by their supplier |
| ChequeLookup.ChequeOptions | System/modules/cheque_lookup.py:14-20 | the choices are distinct and non-blank, numeric ones first by value, then the others in text order |
| ChequeLookup.ChequeOptionsExactly | System/modules/cheque_lookup.py:14-15 | the choices are exactly the ledger's non-blank cheque numbers |
| ChequeLookup.MatchingExactly | System/modules/cheque_lookup.py:32 | a row matches if and only if its cheque number contains the stripped input as plain text, ignoring ASCII case |
| ChequeLookup.ChequeLookupQuery | System/modules/cheque_lookup.py:30-54 | the query, adding the result columns one after another, yields exactly the report specified, including the regex-search outcome |
| ChequeLookup.ReportCases | System/modules/cheque_lookup.py:30-35 | nothing is shown exactly for empty input; a stripped input holding regex syntax is reported as a regex search exactly when it has any; otherwise the warning shows exactly when no row's cheque number contains it |
| ChequeLookup.OptionIsFound | System/modules/cheque_lookup.py:14-35 | choosing an offered cheque number free of regex syntax finds its rows, never the warning |
| ChequeLookup.DetailFacts | System/modules/cheque_lookup.py:38-44 | the detail rows are the matches with amounts filled, their 差额, and date texts missing exactly when the date is |
| ChequeLookup.SummaryFacts | System/modules/cheque_lookup.py:47-59 | one line per department with its sums, then the shaded 总计 line |
| InvoiceLookup.InvoiceOptions | System/modules/invoice_lookup.py:14-19 | the choices are distinct, digit-only ones first by value, then the others in text order |
| InvoiceLookup.InvoiceOptionsExactly | System/modules/invoice_lookup.py:14 | the choices are exactly the ledger's invoice numbers |
| InvoiceLookup.MatchingExactly | System/modules/invoice_lookup.py:31 | a row matches if and only if its invoice number contains the stripped input as plain text, ignoring ASCII case |
| InvoiceLookup.InvoiceLookupQuery | System/modules/invoice_lookup.py:30-43 | the query and its date loop yield exactly the report specified, including the regex-search outcome |
| InvoiceLookup.ReportCases | System/modules/invoice_lookup.py:30-36 | nothing is shown exactly for empty input; a stripped input holding regex syntax is reported as a regex search exactly when it has any; otherwise the warning shows exactly when no row's invoice number contains it |
| InvoiceLookup.OptionIsFound | System/modules/invoice_lookup.py:14-36 | choosing an offered invoice number free of regex syntax finds its rows, never the warning |
| InvoiceLookup.DetailFacts | System/modules/invoice_lookup.py:39-43 | each result row is a match, unchanged, with its 差额 and its two dates as text, missing exactly when the date is |

## Left out

- Streamlit widgets, page layout, the HTML total card, charts (plotly line charts and their tooltips) and the Excel file writing are presentation. The model stops at the tables they display. The date range, department choice, month, mode and text input become parameters.
- `datetime.now()` in the export file name is left out, because it reads the clock.
- Loading is outside the model: `load_supplier_data`, `load_cash_data` and the font loader. The model assumes the loaded columns, with missing identifiers as the text `nan`. `load_cash_data` is not part of this model, so the cash-book columns (month, category code, net, total, TPS, TVQ, supplier, receipt date, cheque number) are assumed as named by the cash-refund page.
- Floating point is left out. Amounts are exact integer cents, so `round(2)` and the float `== 0` test at ap_unpaid_compta.py:247 are exact, and `'{:,.2f}'` display formatting is not modelled.
- `pd.to_datetime` parsing of arbitrary text is left out. Dates arrive parsed or missing, and only the `%Y-%m-%d` text form is modelled, with its parser for the round trip.
- `str.isnumeric`/`str.isdigit` and `^[A-Za-z]` are modelled for ASCII digits and letters only. Other Unicode digits are not modelled.
- `str.strip()` is modelled with the full set of white-space characters `str.isspace()` accepts. `str.lower()` and the `case=False` search fold ASCII letters only; Unicode case folding (accented and non-Latin letters) is not modelled.
- ChequeLookup.MatchingExactly: states plain substring search, ignoring ASCII case. pandas `str.contains` searches for a regular expression; for a search text without regex syntax that is the same search, and the report only uses these matches for such texts.
- InvoiceLookup.MatchingExactly: states plain substring search, as for the cheque look-up.
- Text.ContainsIffOccurs: is about plain substring search, not regular-expression search.
- Text.ContainsOwnTrim: is about plain substring search; a value holding regex syntax need not match itself as a pattern.
- ChequeLookup.ChequeLookupQuery: a stripped search text holding `.` `^` `$` `*` `+` `?` a brace, a bracket, a backslash, `|` or a parenthesis gives the `RegexQuery` outcome. The regular-expression search itself is not modelled: `.` would match every row, `*` or `12(` would raise `re.error`, and some of these texts (`a}` say) are searched literally.
- InvoiceLookup.InvoiceLookupQuery: gives the `RegexQuery` outcome for a search text with regex syntax, as for the cheque look-up.
- ChequeLookup.ReportCases: says when `RegexQuery` is given, not what pandas shows for such a text.
- InvoiceLookup.ReportCases: says when `RegexQuery` is given, not what pandas shows for such a text.
- ChequeLookup.OptionIsFound: holds only for numbers free of regex syntax. An offered number such as `12345(1)` is read as a regular expression that matches `123451` and not itself, so the page can warn that the number it offered does not exist.
- InvoiceLookup.OptionIsFound: holds only for numbers free of regex syntax, for the same reason.
- CashRefund.ParseCode: `pd.to_numeric` is modelled for digit texts with an optional sign and an optional point followed by zeros. Exponent notation (`1e0`), surrounding blanks and other float spellings are not read as numbers. A number with a non-zero fraction is no code in the model; in pandas it is a float that no category key equals, so it gets no category either way.
- ApUnpaid.WeeksOfMonth: for the month option `NaT`, the source's week list also holds the NaN week range of undated rows, and the model's list leaves it out. The weekly table is the same either way, because the source's date comparisons drop those rows.
- CashRefund.ByReceiptDate: pandas' default sort does not fix the order of lines with the same receipt date. The model keeps them in table order, and its lemmas claim only the date order.
- The weekly and monthly chart sums (`groupby(['部门','月份'])`, the weekly `groupby`) are left out as charts. Only the week and month assignment and the weekly filter are modelled.
- The intermediate `st.dataframe` display of the date-filled ledger (ap_unpaid_compta.py:163) is presentation.
- The "all cheques" mode's info line with the minimum and maximum invoice dates is left out, because it only displays text.
- The cash-refund total row is modelled for the category columns as the sum of the month cells. pandas' `select_dtypes` column choice is not modelled.
- ApUnpaidCompta.ComptaDetail: the detail's bank-reconciliation column is shown as date text. The summary rows' pandas dtype handling (`NaT` in object columns) is not modelled.

## Findings

| source | as written | input that shows it | evidently intended | confidence | as-written member | corrected member |
|---|---|---|---|---|---|---|
| System/modules/ap_unpaid_compta.py:355 | after the department loop it assigns `subtotal['银行对账日期'] = pd.NaT`, but `subtotal` is bound only inside the loop | a date range and department choice that leave no reported row, so the loop never runs: UnboundLocalError | `total['银行对账日期'] = pd.NaT`, giving a lone zero 总计 line | not executed | ApUnpaidCompta.EmptyReportFails | ApUnpaidCompta.ComptaDetailFacts |
