/**
  The cheque-number lookup: the cheque numbers offered for choosing, the
  ledger rows whose cheque number contains what was typed or chosen, their
  差额 (invoice less paid) and dates as text, and a per-department summary of
  what was paid, closed by a 总计 line.
*/
module ChequeLookup {

  import opened Common
  import opened Text
  import opened Sorting
  import opened Tables
  import opened Ledger

  function ChequeNoCol(r: Row): string { r.chequeNo }

  /** A cheque number that is not empty once surrounding blanks are stripped. */
  predicate NonBlank(c: string) { Trim(c) != "" }

  /**
    The choices: every non-blank cheque number once, the digit-only ones first
    in increasing value, then the others in text order.
  */
  function ChequeOptions(rows: seq<Row>): (r: seq<string>)
    ensures NoDuplicates(r)
    ensures forall i :: 0 <= i < |r| ==> NonBlank(r[i])
    ensures forall i, j :: 0 <= i < j < |r| && IsNumeric(r[j]) ==> IsNumeric(r[i]) && NumValue(r[i]) <= NumValue(r[j])
    ensures forall i, j :: 0 <= i < j < |r| && !IsNumeric(r[i]) ==> !IsNumeric(r[j]) && LexLe(r[i], r[j])
  {
    var present := Unique(Where(MapRows(rows, ChequeNoCol), NonBlank));
    PresentNonBlank(rows);
    OrderedNonBlank(present);
    OrderIds(present)
  }

  lemma PresentNonBlank(rows: seq<Row>)
    ensures forall x :: x in Unique(Where(MapRows(rows, ChequeNoCol), NonBlank)) ==> NonBlank(x)
  {
    forall x | x in Unique(Where(MapRows(rows, ChequeNoCol), NonBlank)) ensures NonBlank(x) {
      WhereMember(MapRows(rows, ChequeNoCol), NonBlank, x);
    }
  }

  lemma OrderedNonBlank(present: seq<string>)
    requires forall x :: x in present ==> NonBlank(x)
    ensures forall i :: 0 <= i < |OrderIds(present)| ==> NonBlank(OrderIds(present)[i])
  {
    var r := OrderIds(present);
    forall i | 0 <= i < |r| ensures NonBlank(r[i]) {
      assert r[i] in multiset(present);
    }
  }

  /** The choices are exactly the non-blank cheque numbers of the ledger. */
  lemma ChequeOptionsExactly(rows: seq<Row>, c: string)
    ensures c in ChequeOptions(rows) <==> NonBlank(c) && exists i :: 0 <= i < |rows| && rows[i].chequeNo == c
  {
    var col := MapRows(rows, ChequeNoCol);
    var present := Unique(Where(col, NonBlank));
    assert c in ChequeOptions(rows) <==> c in multiset(present);
    WhereMember(col, NonBlank, c);
    if c in col {
      var i :| 0 <= i < |col| && col[i] == c;
      assert rows[i].chequeNo == c;
    }
    if i :| 0 <= i < |rows| && rows[i].chequeNo == c {
      assert col[i] == c;
    }
  }

  /** `str.contains(input.strip(), case=False)` on the cheque number. */
  function Matches(input: string): Row -> bool
  {
    (r: Row) => ContainsIgnoringCase(r.chequeNo, Trim(input))
  }

  /** The matching rows, in ledger order. */
  function Matching(rows: seq<Row>, input: string): seq<Row>
  {
    Where(rows, Matches(input))
  }

  lemma MatchingExactly(rows: seq<Row>, input: string, x: Row)
    ensures x in Matching(rows, input) <==> x in rows && ContainsIgnoringCase(x.chequeNo, Trim(input))
  {
    WhereMember(rows, Matches(input), x);
  }

  /**
    What the page shows: nothing before a cheque is given, a warning, or the
    two tables; a search text holding regex syntax is searched for as a
    regular expression, which this model does not evaluate (`RegexQuery`).
  */
  datatype Report = NoQuery | RegexQuery(pattern: string) | NotFound | Found(summary: seq<SummaryLine>, detail: seq<ShownRow>)

  /** The summed columns: 实际支付金额, TPS, TVQ. */
  function SummaryColumns(): seq<Row -> int> { [PaidCol, TpsCol, TvqCol] }

  /** `fillna(0)` on the invoice and paid columns of a result line. */
  function FillShown(s: ShownRow): ShownRow { s.(row := FillAmounts(s.row)) }

  function RowOf(s: ShownRow): Row { s.row }

  /** One detail line: the amounts filled, the 差额, both dates as text. */
  function ShownCheque(r: Row): ShownRow
  {
    ShownRow(FillAmounts(r), UnpaidCol(r), DateText(r.invoiceDate), DateText(r.chequeDate))
  }

  function ChequeReport(rows: seq<Row>, input: string): Report
  {
    if input == "" then NoQuery
    else if !PlainPattern(Trim(input)) then RegexQuery(Trim(input))
    else
      var f := Matching(rows, input);
      if |f| == 0 then NotFound
      else Found(Summary(MapRows(f, FillAmounts), DeptKey, SummaryColumns()), MapRows(f, ShownCheque))
  }

  /** The query, adding the columns to the result frame one after another as the page does. */
  method ChequeLookupQuery(rows: seq<Row>, input: string) returns (report: Report)
    ensures report == ChequeReport(rows, input)
  {
    if input == "" {
      return NoQuery;
    }
    if !PlainPattern(Trim(input)) {
      return RegexQuery(Trim(input));
    }
    var f := Matching(rows, input);
    if |f| == 0 {
      return NotFound;
    }
    var a := new ShownRow[|f|](i requires 0 <= i < |f| => Unshown(f[i]));
    ghost var s0 := a[..];
    AssignAll(a, FillShown);
    ghost var s1 := a[..];
    AssignAll(a, WithDiff);
    ghost var s2 := a[..];
    AssignAll(a, FormatDateColumn(0));
    ghost var s3 := a[..];
    AssignAll(a, FormatDateColumn(1));
    forall i | 0 <= i < |f| ensures a[i] == ShownCheque(f[i]) {
      assert s0[i] == Unshown(f[i]);
      assert s1[i] == FillShown(s0[i]);
      assert s2[i] == WithDiff(s1[i]);
      assert s3[i] == FormatDateColumn(0)(s2[i]);
    }
    assert a[..] == MapRows(f, ShownCheque);
    var filled := MapRows(a[..], RowOf);
    assert filled == MapRows(f, FillAmounts);
    report := Found(Summary(filled, DeptKey, SummaryColumns()), a[..]);
  }

  /**
    The outcomes and when each happens: the warning shows exactly when a plain
    search text is contained in no row's number.
  */
  lemma ReportCases(rows: seq<Row>, input: string)
    ensures ChequeReport(rows, input).NoQuery? <==> input == ""
    ensures ChequeReport(rows, input).RegexQuery? <==> input != "" && !PlainPattern(Trim(input))
    ensures ChequeReport(rows, input).NotFound? <==>
      input != "" && PlainPattern(Trim(input)) && forall x :: x in rows ==> !ContainsIgnoringCase(x.chequeNo, Trim(input))
  {
    var f := Matching(rows, input);
    if input != "" && PlainPattern(Trim(input)) && |f| == 0 {
      forall x | x in rows ensures !ContainsIgnoringCase(x.chequeNo, Trim(input)) {
        MatchingExactly(rows, input, x);
      }
    }
    if input != "" && PlainPattern(Trim(input)) && |f| != 0 {
      MatchingExactly(rows, input, f[0]);
    }
  }

  /**
    Choosing an offered cheque number that holds no regex syntax always finds
    its rows, never the warning.
  */
  lemma OptionIsFound(rows: seq<Row>, c: string, x: Row)
    requires c in ChequeOptions(rows) && PlainPattern(c)
    requires x in rows && x.chequeNo == c
    ensures ChequeReport(rows, c).Found?
    ensures x in Matching(rows, c)
  {
    PlainTrim(c);
    ContainsOwnTrim(c);
    MatchingExactly(rows, c, x);
  }

  /**
    The detail table holds the matching rows in ledger order, each with its
    amounts filled, its 差额 and its two dates as text.
  */
  lemma DetailFacts(rows: seq<Row>, input: string)
    requires ChequeReport(rows, input).Found?
    ensures var d := ChequeReport(rows, input).detail;
      var f := Matching(rows, input);
      |d| == |f| > 0
      && (forall i :: 0 <= i < |d| ==> f[i] in rows && ContainsIgnoringCase(f[i].chequeNo, Trim(input)))
      && (forall i :: 0 <= i < |d| ==>
            d[i].row == FillAmounts(f[i])
            && d[i].row.invoiceAmount == Some(InvoiceCol(f[i]))
            && d[i].row.paid == Some(PaidCol(f[i]))
            && d[i].diff == InvoiceCol(f[i]) - PaidCol(f[i])
            && d[i].invoiceDateText == DateText(f[i].invoiceDate)
            && d[i].chequeDateText == DateText(f[i].chequeDate))
  {
    var f := Matching(rows, input);
    forall i | 0 <= i < |f| ensures f[i] in rows && ContainsIgnoringCase(f[i].chequeNo, Trim(input)) {
      MatchingExactly(rows, input, f[i]);
    }
  }

  /**
    The summary has one line per department of the matching rows, in text
    order, with its paid, TPS and TVQ sums, then the 总计 line of the sums over
    every matching row that has a department; filling the amounts first changes
    none of these sums.
  */
  lemma SummaryFacts(rows: seq<Row>, input: string)
    requires ChequeReport(rows, input).Found?
    ensures var s := ChequeReport(rows, input).summary;
      var f := Matching(rows, input);
      var keys := Keys(f, DeptKey);
      |s| == |keys| + 1
      && (forall i :: 0 <= i < |keys| ==> s[i] == GroupLine(keys[i], Sums(Group(f, DeptKey, keys[i]), SummaryColumns())))
      && s[|keys|] == TotalLine(Sums(Keyed(f, DeptKey), SummaryColumns()))
      && SummaryMark(s[|keys|]) == TotalMark
  {
    var f := Matching(rows, input);
    assert ChequeReport(rows, input).summary == Summary(MapRows(f, FillAmounts), DeptKey, SummaryColumns());
    FilledSummary(f);
    MatchSummary(f);
  }

  /** The summary of any rows: one line per department, then the 总计 line. */
  lemma MatchSummary(f: seq<Row>)
    ensures var s := Summary(f, DeptKey, SummaryColumns());
      var keys := Keys(f, DeptKey);
      |s| == |keys| + 1
      && (forall i :: 0 <= i < |keys| ==> s[i] == GroupLine(keys[i], Sums(Group(f, DeptKey, keys[i]), SummaryColumns())))
      && s[|keys|] == TotalLine(Sums(Keyed(f, DeptKey), SummaryColumns()))
      && SummaryMark(s[|keys|]) == TotalMark
  {
    SummaryTotals(f, DeptKey, SummaryColumns());
    assert SummaryLabel(TotalLine(Sums(Keyed(f, DeptKey), SummaryColumns()))) == TotalLabel;
  }

  /** Filling the amounts keeps every department and every summed column. */
  lemma FilledSummary(f: seq<Row>)
    ensures Summary(MapRows(f, FillAmounts), DeptKey, SummaryColumns()) == Summary(f, DeptKey, SummaryColumns())
  {
    var cols := SummaryColumns();
    forall i, j | 0 <= i < |f| && 0 <= j < |cols| ensures cols[j](FillAmounts(f[i])) == cols[j](f[i]) {
      assert j == 0 || j == 1 || j == 2;
    }
    SummaryMapped(f, FillAmounts, DeptKey, cols);
  }
}
