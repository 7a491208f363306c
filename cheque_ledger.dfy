/**
  The cheque ledger (支票总账): the ledger rows with a usable cheque number,
  one line per cheque with its amounts summed and its invoices listed, only
  the cheques whose number starts with a digit, ordered by that number, and
  a 总计 line. It can be narrowed to one bank reconciliation date and
  exported with a matching key per cheque. A third view lists the automatic
  payments (PPA / EFT / debit): the rows of a company marked with `*` or
  paid by a reference that starts with a letter.
*/
module ChequeLedger {

  import opened Common
  import opened Text
  import opened Sorting
  import opened Dates
  import opened Tables
  import opened Ledger
  import opened Sidebar
  import opened ApUnpaid

  // ---------------------------------------------------------------------------
  // usable cheque numbers
  // ---------------------------------------------------------------------------

  /** A cheque number that is not blank, `nan` or `none` once trimmed and lower-cased. */
  predicate ValidCheque(cheque: string)
  {
    Lower(Trim(cheque)) !in ["", "nan", "none"]
  }

  predicate ValidRow(r: Row) { ValidCheque(r.chequeNo) }

  /** The rows the ledger is built from. */
  function ValidRows(rows: seq<Row>): seq<Row>
  {
    Where(rows, ValidRow)
  }

  // ---------------------------------------------------------------------------
  // one line per cheque
  // ---------------------------------------------------------------------------

  datatype LedgerLine = LedgerLine(
    cheque: string,                    // 付款支票号
    company: string,                   // 公司名称, from the first row
    dept: Option<string>,              // 部门, the first one given
    invoiceNos: string,                // 发票号, sorted and joined with ','
    invoiceAmounts: string,            // 发票金额 as text, sorted and joined with '+'
    reconcileDate: Option<ValidDate>,  // 银行对账日期, the first one given
    chequeDate: Option<ValidDate>,     // 开支票日期, the first one given
    paid: int,                         // 实际支付金额, summed
    tps: int,                          // TPS, summed
    tvq: int                           // TVQ, summed
  )

  /** `str` of an invoice amount cell: the float's text, or `nan`. */
  function AmountText(a: Option<int>): string
  {
    if a.Some? then FloatText(a.value) else "nan"
  }

  function AmountTextCol(r: Row): string { AmountText(r.invoiceAmount) }

  /** The aggregation of one cheque's rows. */
  function Aggregate(k: string, g: seq<Row>): LedgerLine
  {
    LedgerLine(
      k,
      if |g| > 0 then g[0].company else "",
      FirstPresent(DeptColumn(g)),
      Join(SortText(MapRows(g, InvoiceNoCol)), ','),
      Join(SortText(MapRows(g, AmountTextCol)), '+'),
      FirstPresent(MapRows(g, ReconcileCol)),
      FirstPresent(MapRows(g, ChequeDateCol)),
      ColumnSum(g, PaidCol), ColumnSum(g, TpsCol), ColumnSum(g, TvqCol))
  }

  function GroupedLines(rows: seq<Row>, keys: seq<string>): (r: seq<LedgerLine>)
    ensures |r| == |keys|
    ensures forall i :: 0 <= i < |keys| ==> r[i].cheque == keys[i]
  {
    if keys == [] then []
    else GroupedLines(rows, keys[..|keys| - 1]) + [Aggregate(keys[|keys| - 1], Group(rows, ChequeKey, keys[|keys| - 1]))]
  }

  lemma {:induction false} GroupedLinesAt(rows: seq<Row>, keys: seq<string>, i: nat)
    requires i < |keys|
    ensures GroupedLines(rows, keys)[i] == Aggregate(keys[i], Group(rows, ChequeKey, keys[i]))
    decreases |keys|
  {
    if i < |keys| - 1 {
      GroupedLinesAt(rows, keys[..|keys| - 1], i);
    }
  }

  /** `groupby('付款支票号').agg(...)` over the usable rows: one line per cheque number, in text order. */
  function Grouped(rows: seq<Row>): seq<LedgerLine>
  {
    var v := ValidRows(rows);
    GroupedLines(v, Keys(v, ChequeKey))
  }

  /** 税后金额: what the cheque paid net of the two sales taxes. */
  function Net(l: LedgerLine): int
  {
    l.paid - l.tps - l.tvq
  }

  /** The net amount of one ledger row, a missing amount counting as 0. */
  function RowNet(r: Row): int
  {
    PaidCol(r) - TpsCol(r) - TvqCol(r)
  }

  function PaidLessTps(r: Row): int { PaidCol(r) - TpsCol(r) }

  /** A sum of the row nets is the sum paid less the sums of the two taxes. */
  lemma RowNetSum(g: seq<Row>)
    ensures ColumnSum(g, RowNet) == ColumnSum(g, PaidCol) - ColumnSum(g, TpsCol) - ColumnSum(g, TvqCol)
  {
    ColumnSumDifference(g, PaidLessTps, TvqCol, RowNet);
    ColumnSumDifference(g, PaidCol, TpsCol, PaidLessTps);
  }

  /** A sorted list joined on a separator that none of its texts holds splits back into that list. */
  lemma SortedListSplits(texts: seq<string>, sep: char)
    requires |texts| > 0
    requires forall i :: 0 <= i < |texts| ==> sep !in texts[i]
    ensures Split(Join(SortText(texts), sep), sep) == SortText(texts)
    ensures multiset(Split(Join(SortText(texts), sep), sep)) == multiset(texts)
  {
    var sorted := SortText(texts);
    assert |sorted| == |texts| by {
      assert |multiset(sorted)| == |multiset(texts)|;
    }
    forall j | 0 <= j < |sorted| ensures sep !in sorted[j] {
      assert sorted[j] in multiset(texts);
      var m :| 0 <= m < |texts| && texts[m] == sorted[j];
    }
    SplitJoin(sorted, sep);
  }

  /** No amount text holds a `+`. */
  lemma AmountTextsPlain(g: seq<Row>)
    ensures forall i :: 0 <= i < |MapRows(g, AmountTextCol)| ==> '+' !in MapRows(g, AmountTextCol)[i]
  {
    forall i | 0 <= i < |g| ensures '+' !in AmountTextCol(g[i]) {
      if g[i].invoiceAmount.Some? {
        FloatTextCharacters(g[i].invoiceAmount.value);
      }
    }
  }

  /**
    The line of a non-empty group takes its company from the first row and
    its department from the first row that has one (none only when no row
    has one).
  */
  lemma AggregateDept(k: string, g: seq<Row>)
    requires |g| > 0
    ensures var l := Aggregate(k, g);
      && l.company == g[0].company
      && (l.dept.None? <==> forall j :: 0 <= j < |g| ==> g[j].dept.None?)
      && (l.dept.Some? ==> exists j :: 0 <= j < |g| && g[j].dept == l.dept && forall m :: 0 <= m < j ==> g[m].dept.None?)
  {
    var col := DeptColumn(g);
    assert forall j :: 0 <= j < |g| ==> col[j] == g[j].dept;
  }

  /** Its amount list splits back into the sorted texts of the rows' invoice amounts. */
  lemma AggregateAmounts(k: string, g: seq<Row>)
    requires |g| > 0
    ensures var l := Aggregate(k, g);
      && Split(l.invoiceAmounts, '+') == SortText(MapRows(g, AmountTextCol))
      && multiset(Split(l.invoiceAmounts, '+')) == multiset(MapRows(g, AmountTextCol))
  {
    AmountTextsPlain(g);
    SortedListSplits(MapRows(g, AmountTextCol), '+');
  }

  /** So does its invoice list, when no invoice number holds a comma. */
  lemma AggregateInvoices(k: string, g: seq<Row>)
    requires |g| > 0
    requires forall j :: 0 <= j < |g| ==> ',' !in g[j].invoiceNo
    ensures var l := Aggregate(k, g);
      && Split(l.invoiceNos, ',') == SortText(MapRows(g, InvoiceNoCol))
      && multiset(Split(l.invoiceNos, ',')) == multiset(MapRows(g, InvoiceNoCol))
  {
    SortedListSplits(MapRows(g, InvoiceNoCol), ',');
  }

  /** Its 税后金额 is the sum of its rows' nets. */
  lemma AggregateNet(k: string, g: seq<Row>)
    ensures Net(Aggregate(k, g)) == ColumnSum(g, RowNet)
  {
    RowNetSum(g);
  }

  /** Each group the ledger lists holds at least one row, all of them usable rows of its cheque. */
  lemma ChequeGroup(v: seq<Row>, i: nat)
    requires forall j :: 0 <= j < |v| ==> ValidRow(v[j])
    requires i < |Keys(v, ChequeKey)|
    ensures var k := Keys(v, ChequeKey)[i];
      var g := Group(v, ChequeKey, k);
      |g| > 0 && ValidCheque(k) && forall j :: 0 <= j < |g| ==> g[j].chequeNo == k && ValidRow(g[j])
  {
    var k := Keys(v, ChequeKey)[i];
    var n :| 0 <= n < |v| && ChequeKey(v[n]) == Some(k);
    ChequeGroupOfRow(v, n);
  }

  lemma ChequeGroupOfRow(v: seq<Row>, n: nat)
    requires n < |v|
    requires forall i :: 0 <= i < |v| ==> ValidRow(v[i])
    ensures var k := v[n].chequeNo;
      var g := Group(v, ChequeKey, k);
      |g| > 0 && ValidCheque(k) && forall j :: 0 <= j < |g| ==> g[j].chequeNo == k && ValidRow(g[j])
  {
    GroupNonEmpty(v, ChequeKey, n);
    GroupPreserves(v, ChequeKey, v[n].chequeNo, ValidRow);
  }

  lemma ValidRowsValid(rows: seq<Row>)
    ensures forall i :: 0 <= i < |ValidRows(rows)| ==> ValidRow(ValidRows(rows)[i])
  {
  }

  /**
    Each grouped line gathers the usable rows of its cheque, of which there
    is at least one; its amounts are their sums, and the rest is as
    `AggregateDept`, `AggregateAmounts` and `AggregateInvoices` say.
  */
  lemma GroupedLineFacts(rows: seq<Row>, i: nat)
    requires i < |Grouped(rows)|
    ensures var l := Grouped(rows)[i];
      var g := Group(ValidRows(rows), ChequeKey, l.cheque);
      && |g| > 0
      && ValidCheque(l.cheque)
      && (forall j :: 0 <= j < |g| ==> g[j].chequeNo == l.cheque && ValidRow(g[j]))
      && l == Aggregate(l.cheque, g)
      && l.paid == ColumnSum(g, PaidCol) && l.tps == ColumnSum(g, TpsCol) && l.tvq == ColumnSum(g, TvqCol)
      && Net(l) == ColumnSum(g, RowNet)
  {
    var v := ValidRows(rows);
    var k := Keys(v, ChequeKey)[i];
    GroupedLinesAt(v, Keys(v, ChequeKey), i);
    ValidRowsValid(rows);
    ChequeGroup(v, i);
    AggregateNet(k, Group(v, ChequeKey, k));
  }

  // ---------------------------------------------------------------------------
  // the cheques shown: digit-leading numbers in numeric order
  // ---------------------------------------------------------------------------

  predicate DigitLine(l: LedgerLine) { StartsWithDigit(l.cheque) }
  predicate DigitRow(r: Row) { StartsWithDigit(r.chequeNo) }
  predicate ValidLine(l: LedgerLine) { ValidCheque(l.cheque) }

  /** The integer value of the leading run of digits (`str.extract(r'^(\\d+)')` then `astype(int)`). */
  function ChequeNumber(l: LedgerLine): nat
  {
    NumValue(LeadingDigits(l.cheque))
  }

  /** The ledger as shown: the digit-leading cheques, by the value of their leading number. */
  function LedgerLines(rows: seq<Row>): seq<LedgerLine>
  {
    SortByKey(Where(Grouped(rows), DigitLine), ChequeNumber)
  }

  /**
    The shown lines are exactly the grouped lines whose cheque starts with a
    digit, each once, ordered by the leading number; every one of them has a
    usable cheque number.
  */
  lemma LedgerLinesFacts(rows: seq<Row>)
    ensures var s := LedgerLines(rows);
      && SortedByKey(s, ChequeNumber)
      && (forall l :: multiset(s)[l] == if DigitLine(l) then multiset(Grouped(rows))[l] else 0)
      && (forall i :: 0 <= i < |s| ==> DigitLine(s[i]) && ValidLine(s[i]))
  {
    WhereCounts(Grouped(rows), DigitLine);
    LedgerLinesValid(rows);
  }

  lemma LedgerLinesValid(rows: seq<Row>)
    ensures forall i :: 0 <= i < |LedgerLines(rows)| ==> DigitLine(LedgerLines(rows)[i]) && ValidLine(LedgerLines(rows)[i])
  {
    var grouped := Grouped(rows);
    var w := Where(grouped, DigitLine);
    var s := LedgerLines(rows);
    GroupedValid(rows);
    forall i | 0 <= i < |s| ensures DigitLine(s[i]) && ValidLine(s[i]) {
      assert s[i] in multiset(w);
      WhereMember(grouped, DigitLine, s[i]);
      var m :| 0 <= m < |grouped| && grouped[m] == s[i];
    }
  }

  lemma GroupedValid(rows: seq<Row>)
    ensures forall i :: 0 <= i < |Grouped(rows)| ==> ValidLine(Grouped(rows)[i])
  {
    forall i | 0 <= i < |Grouped(rows)| ensures ValidLine(Grouped(rows)[i]) {
      ValidRowsValid(rows);
      ChequeGroup(ValidRows(rows), i);
    }
  }

  // ---------------------------------------------------------------------------
  // the shown amounts add up to the ledger's own rows
  // ---------------------------------------------------------------------------

  function LinePaid(l: LedgerLine): int { l.paid }
  function LineTps(l: LedgerLine): int { l.tps }
  function LineTvq(l: LedgerLine): int { l.tvq }

  /** The amount columns of a line: 0 paid, 1 TPS, 2 TVQ. */
  function LineCol(j: nat): LedgerLine -> int
  {
    if j == 0 then LinePaid else if j == 1 then LineTps else LineTvq
  }

  lemma AggregateColumn(k: string, g: seq<Row>, j: nat)
    ensures LineCol(j)(Aggregate(k, g)) == ColumnSum(g, RowCol(j))
  {
  }

  lemma {:induction false} DigitLinesColumn(v: seq<Row>, keys: seq<string>, j: nat)
    ensures ColumnSum(Where(GroupedLines(v, keys), DigitLine), LineCol(j))
         == GroupsColumnSum(v, ChequeKey, Where(keys, StartsWithDigit), RowCol(j))
    decreases |keys|
  {
    if keys != [] {
      var ks := keys[..|keys| - 1];
      var k := keys[|keys| - 1];
      var g := Group(v, ChequeKey, k);
      var l := Aggregate(k, g);
      assert keys == ks + [k];
      assert GroupedLines(v, keys) == GroupedLines(v, ks) + [l];
      assert DigitLine(l) == StartsWithDigit(k);
      calc {
        ColumnSum(Where(GroupedLines(v, keys), DigitLine), LineCol(j));
        { WhereSumSnoc(GroupedLines(v, ks), l, DigitLine, LineCol(j)); }
        ColumnSum(Where(GroupedLines(v, ks), DigitLine), LineCol(j)) + (if DigitLine(l) then LineCol(j)(l) else 0);
        { DigitLinesColumn(v, ks, j); AggregateColumn(k, g, j); }
        GroupsColumnSum(v, ChequeKey, Where(ks, StartsWithDigit), RowCol(j))
          + (if StartsWithDigit(k) then ColumnSum(g, RowCol(j)) else 0);
        { GroupsSumWhereSnoc(v, ChequeKey, ks, k, StartsWithDigit, RowCol(j)); }
        GroupsColumnSum(v, ChequeKey, Where(keys, StartsWithDigit), RowCol(j));
      }
    }
  }

  /** The digit-leading cheque numbers cover the digit-numbered usable rows. */
  lemma DigitKeysCover(rows: seq<Row>)
    ensures var v := ValidRows(rows);
      Covers(Where(Keys(v, ChequeKey), StartsWithDigit), Where(v, DigitRow), ChequeKey)
  {
    var v := ValidRows(rows);
    var keys := Keys(v, ChequeKey);
    var vd := Where(v, DigitRow);
    forall i | 0 <= i < |vd| ensures vd[i].chequeNo in Where(keys, StartsWithDigit) {
      var r := vd[i];
      WhereMember(v, DigitRow, r);
      var m :| 0 <= m < |v| && v[m] == r;
      assert ChequeKey(v[m]).Some?;
      WhereMember(keys, StartsWithDigit, r.chequeNo);
    }
  }

  lemma DigitKeysOnlyDigitRows(keys: seq<string>)
    ensures forall r, k :: k in Where(keys, StartsWithDigit) && ChequeKey(r) == Some(k) ==> DigitRow(r)
  {
    forall r, k | k in Where(keys, StartsWithDigit) && ChequeKey(r) == Some(k) ensures DigitRow(r) {
      WhereMember(keys, StartsWithDigit, k);
    }
  }

  /**
    Each amount column of the shown lines sums to the same column over every
    usable ledger row whose cheque number starts with a digit.
  */
  lemma LedgerColumnIsRowColumn(rows: seq<Row>, j: nat)
    requires j < 3
    ensures ColumnSum(LedgerLines(rows), LineCol(j)) == ColumnSum(Where(ValidRows(rows), DigitRow), RowCol(j))
  {
    var v := ValidRows(rows);
    var keys := Keys(v, ChequeKey);
    var vd := Where(v, DigitRow);
    var kd := Where(keys, StartsWithDigit);
    var w := Where(Grouped(rows), DigitLine);
    ColumnSumPermutation(LedgerLines(rows), w, LineCol(j));
    DigitLinesColumn(v, keys, j);
    DigitKeysOnlyDigitRows(keys);
    GroupsColumnSumOfFiltered(v, ChequeKey, DigitRow, kd, RowCol(j));
    WhereDistinct(keys, StartsWithDigit);
    DigitKeysCover(rows);
    GroupSumsAddUp(vd, ChequeKey, kd, RowCol(j));
    KeyedAll(vd, ChequeKey);
  }

  // ---------------------------------------------------------------------------
  // the 总计 line
  // ---------------------------------------------------------------------------

  datatype LedgerTotal = LedgerTotal(paid: int, tps: int, tvq: int, net: int)

  function LinePaidLessTps(l: LedgerLine): int { l.paid - l.tps }

  /** The 总计 line: each amount column summed over the lines shown; its net is the net of its sums. */
  function Total(lines: seq<LedgerLine>): (t: LedgerTotal)
    ensures t.net == t.paid - t.tps - t.tvq
  {
    ColumnSumDifference(lines, LinePaidLessTps, LineTvq, Net);
    ColumnSumDifference(lines, LinePaid, LineTps, LinePaidLessTps);
    LedgerTotal(ColumnSum(lines, LinePaid), ColumnSum(lines, LineTps), ColumnSum(lines, LineTvq), ColumnSum(lines, Net))
  }

  /**
    The 总计 of the whole ledger is the total over the usable ledger rows
    whose cheque number starts with a digit: no such row is lost or counted
    twice by the grouping, and the filter and the sort change nothing.
  */
  lemma TotalMatchesRows(rows: seq<Row>)
    ensures var d := Where(ValidRows(rows), DigitRow);
      Total(LedgerLines(rows))
        == LedgerTotal(ColumnSum(d, PaidCol), ColumnSum(d, TpsCol), ColumnSum(d, TvqCol), ColumnSum(d, RowNet))
  {
    LedgerColumnIsRowColumn(rows, 0);
    LedgerColumnIsRowColumn(rows, 1);
    LedgerColumnIsRowColumn(rows, 2);
    RowNetSum(Where(ValidRows(rows), DigitRow));
  }

  /** The labels in the 付款支票号 column of the table shown: the cheques, then 总计. */
  function LineCheque(l: LedgerLine): string { l.cheque }

  function TableLabels(lines: seq<LedgerLine>): seq<string>
  {
    MapRows(lines, LineCheque) + [TotalLabel]
  }

  /** `highlight_total`: the row labelled 总计 is coloured. */
  predicate Highlighted(text: string)
  {
    text == TotalLabel
  }

  /** Since every shown cheque starts with a digit, the only coloured row is the last one. */
  lemma OnlyTotalHighlighted(lines: seq<LedgerLine>)
    requires forall i :: 0 <= i < |lines| ==> DigitLine(lines[i])
    ensures var labels := TableLabels(lines);
      forall i :: 0 <= i < |labels| ==> (Highlighted(labels[i]) <==> i == |lines|)
  {
    var labels := TableLabels(lines);
    forall i | 0 <= i < |lines| ensures !Highlighted(labels[i]) {
      assert labels[i] == lines[i].cheque;
      assert !IsDigit(TotalLabel[0]);
    }
  }

  // ---------------------------------------------------------------------------
  // narrowing to one reconciliation date
  // ---------------------------------------------------------------------------

  /** The 银行对账日期 cell as shown: the formatted date, or missing. */
  function ShownReconcile(l: LedgerLine): Option<string>
  {
    if l.reconcileDate.Some? then Some(FormatDate(l.reconcileDate.value)) else None
  }

  /** The choices offered: `全部`, then every reconciliation date shown, once each, in order. */
  function ReconcileOptions(lines: seq<LedgerLine>): (r: seq<string>)
    ensures |r| > 0 && r[0] == AllChoice
    ensures SortedText(r[1..]) && Distinct(r[1..])
    ensures forall x :: x in r[1..] <==> exists i :: 0 <= i < |lines| && ShownReconcile(lines[i]) == Some(x)
  {
    var col := MapRows(lines, ShownReconcile);
    var dates := SortedDistinct(Present(col));
    assert ([AllChoice] + dates)[1..] == dates;
    assert forall x :: Some(x) in col ==> exists i :: 0 <= i < |lines| && ShownReconcile(lines[i]) == Some(x) by {
      forall x | Some(x) in col ensures exists i :: 0 <= i < |lines| && ShownReconcile(lines[i]) == Some(x) {
        var i :| 0 <= i < |col| && col[i] == Some(x);
      }
    }
    [AllChoice] + dates
  }

  function ReconcileMask(choice: string): LedgerLine -> bool
  {
    l => ShownReconcile(l) == Some(choice)
  }

  /** `全部` keeps every line, any other choice the lines whose shown date is that text. */
  function SelectByReconcile(lines: seq<LedgerLine>, choice: string): seq<LedgerLine>
  {
    if choice == AllChoice then lines else Where(lines, ReconcileMask(choice))
  }

  /**
    Choosing a date keeps each line whose shown date equals it, as often as
    it occurs, and no other line; a date offered among the options never
    means `全部` and always keeps at least one line.
  */
  lemma ReconcileSelection(lines: seq<LedgerLine>, choice: string)
    ensures choice == AllChoice ==> SelectByReconcile(lines, choice) == lines
    ensures choice != AllChoice ==>
      forall l :: multiset(SelectByReconcile(lines, choice))[l]
        == if ShownReconcile(l) == Some(choice) then multiset(lines)[l] else 0
    ensures choice in ReconcileOptions(lines)[1..] ==> choice != AllChoice && |SelectByReconcile(lines, choice)| > 0
  {
    WhereCounts(lines, ReconcileMask(choice));
    if choice in ReconcileOptions(lines)[1..] {
      OfferedDateSelects(lines, choice);
    }
  }

  lemma OfferedDateSelects(lines: seq<LedgerLine>, choice: string)
    requires choice in ReconcileOptions(lines)[1..]
    ensures choice != AllChoice && |SelectByReconcile(lines, choice)| > 0
  {
    var i :| 0 <= i < |lines| && ShownReconcile(lines[i]) == Some(choice);
    assert |choice| == 10;
    WhereMember(lines, ReconcileMask(choice), lines[i]);
  }

  // ---------------------------------------------------------------------------
  // the export's matching key
  // ---------------------------------------------------------------------------

  /** 辅助匹配列: every digit of the cheque number, `-`, the amount paid with two decimals. */
  function MatchKey(l: LedgerLine): string
  {
    DigitsOf(l.cheque) + "-" + CentsText(l.paid)
  }

  /** The key reads back into the cheque's digits and the exact amount paid. */
  lemma MatchKeyReadsBack(l: LedgerLine)
    ensures SplitAtFirst(MatchKey(l), '-').0 == DigitsOf(l.cheque)
    ensures ParseCents(SplitAtFirst(MatchKey(l), '-').1) == Some(l.paid)
  {
    var d := DigitsOf(l.cheque);
    assert '-' !in d by {
      forall i | 0 <= i < |d| ensures d[i] != '-' {
        assert IsDigit(d[i]);
      }
    }
    assert MatchKey(l) == d + ['-'] + CentsText(l.paid);
    SplitAtFirstPiece(d, '-', CentsText(l.paid));
    CentsTextRoundTrip(l.paid);
  }

  /** Two lines share a key exactly when their cheques have the same digits and they paid the same. */
  lemma MatchKeyInjective(a: LedgerLine, b: LedgerLine)
    ensures MatchKey(a) == MatchKey(b) <==> DigitsOf(a.cheque) == DigitsOf(b.cheque) && a.paid == b.paid
  {
    MatchKeyReadsBack(a);
    MatchKeyReadsBack(b);
  }

  // ---------------------------------------------------------------------------
  // automatic payments (PPA / EFT / debit)
  // ---------------------------------------------------------------------------

  /** A company marked as paid automatically (`str.endswith('*')`). */
  predicate StarCompany(r: Row) { EndsWith(r.company, "*") }

  /**
    A usable row of a `*` company, or of another company paid by a reference
    that starts with a letter (`^[A-Za-z]`).
  */
  predicate AutoDebit(r: Row)
  {
    ValidCheque(r.chequeNo)
    && (StarCompany(r) || (!StarCompany(r) && StartsWithLetter(r.chequeNo)))
  }

  /**
    The two conditions never hold together, and together they mean a `*`
    company or a letter reference. A letter reference is never shown in the
    cheque ledger, which keeps only digit-leading numbers.
  */
  lemma AutoDebitRule(r: Row)
    ensures AutoDebit(r) <==> ValidCheque(r.chequeNo) && (StarCompany(r) || StartsWithLetter(r.chequeNo))
    ensures !(StarCompany(r) && (!StarCompany(r) && StartsWithLetter(r.chequeNo)))
    ensures AutoDebit(r) && !StarCompany(r) ==> !DigitRow(r)
  {
  }

  datatype AutoDebitView = NoneFound | Found(rows: seq<Row>)

  /**
    The automatic payments of the invoice-date window [start, end]; when no row
    at all is an automatic payment, a warning is shown instead.
  */
  function AutoDebits(rows: seq<Row>, start: ValidDate, end: ValidDate): AutoDebitView
  {
    var a := Where(rows, AutoDebit);
    if a == [] then NoneFound else Found(Where(a, InvoiceMask(start, end)))
  }

  /**
    The warning appears exactly when no row is an automatic payment; otherwise
    the list holds each automatic payment dated in the window, as often as it
    occurs, and nothing else.
  */
  lemma AutoDebitsFacts(rows: seq<Row>, start: ValidDate, end: ValidDate)
    ensures AutoDebits(rows, start, end).NoneFound? <==> forall i :: 0 <= i < |rows| ==> !AutoDebit(rows[i])
    ensures AutoDebits(rows, start, end).Found? ==>
      forall r :: multiset(AutoDebits(rows, start, end).rows)[r]
        == if AutoDebit(r) && InvoiceInWindow(r, start, end) then multiset(rows)[r] else 0
  {
    var a := Where(rows, AutoDebit);
    WhereCounts(rows, AutoDebit);
    WhereCounts(a, InvoiceMask(start, end));
    if a == [] {
      forall i | 0 <= i < |rows| ensures !AutoDebit(rows[i]) {
        assert rows[i] in multiset(rows);
      }
    } else {
      assert a[0] in multiset(a);
    }
  }

  // ---------------------------------------------------------------------------
  // the three views
  // ---------------------------------------------------------------------------

  datatype Mode = AllCheques | ByReconcileDate(choice: string) | AutoPayments(start: ValidDate, end: ValidDate)

  datatype View = ChequeTable(lines: seq<LedgerLine>, total: LedgerTotal) | AutoDebitList(list: AutoDebitView)

  /** `cheque_ledger_query`: the view for the mode chosen. */
  function LedgerView(rows: seq<Row>, mode: Mode): View
  {
    match mode
    case AllCheques =>
      var s := LedgerLines(rows);
      ChequeTable(s, Total(s))
    case ByReconcileDate(choice) =>
      var s := SelectByReconcile(LedgerLines(rows), choice);
      ChequeTable(s, Total(s))
    case AutoPayments(start, end) => AutoDebitList(AutoDebits(rows, start, end))
  }

  /**
    Both cheque views end in the 总计 of their lines, the only coloured row;
    for the whole ledger that 总计 is the total of the usable digit-numbered
    ledger rows.
  */
  lemma LedgerViewFacts(rows: seq<Row>, mode: Mode)
    ensures LedgerView(rows, mode).ChequeTable? <==> !mode.AutoPayments?
    ensures var view := LedgerView(rows, mode);
      view.ChequeTable? ==>
        && view.total == Total(view.lines)
        && (forall i :: 0 <= i < |view.lines| ==> DigitLine(view.lines[i]))
        && (forall i :: 0 <= i < |TableLabels(view.lines)| ==>
              (Highlighted(TableLabels(view.lines)[i]) <==> i == |view.lines|))
    ensures mode.AllCheques? ==>
      var d := Where(ValidRows(rows), DigitRow);
      LedgerView(rows, mode).total
        == LedgerTotal(ColumnSum(d, PaidCol), ColumnSum(d, TpsCol), ColumnSum(d, TvqCol), ColumnSum(d, RowNet))
  {
    var s := LedgerLines(rows);
    LedgerLinesFacts(rows);
    match mode
    case AllCheques =>
      OnlyTotalHighlighted(s);
      TotalMatchesRows(rows);
    case ByReconcileDate(choice) =>
      WherePreserves(s, ReconcileMask(choice), DigitLine);
      OnlyTotalHighlighted(SelectByReconcile(s, choice));
    case AutoPayments(_, _) =>
  }
}
