/**
  The invoice-number lookup: the invoice numbers offered for choosing, the
  ledger rows whose invoice number contains what was typed or chosen, each
  with its 差额 (invoice less paid) and its invoice and cheque dates as text.
*/
module InvoiceLookup {

  import opened Common
  import opened Text
  import opened Sorting
  import opened Tables
  import opened Ledger
  import opened Dates

  /**
    The choices: every invoice number of the ledger once, the digit-only ones
    first in increasing value, then the others in text order.
  */
  function InvoiceOptions(rows: seq<Row>): (r: seq<string>)
    ensures NoDuplicates(r)
    ensures forall i, j :: 0 <= i < j < |r| && IsNumeric(r[j]) ==> IsNumeric(r[i]) && NumValue(r[i]) <= NumValue(r[j])
    ensures forall i, j :: 0 <= i < j < |r| && !IsNumeric(r[i]) ==> !IsNumeric(r[j]) && LexLe(r[i], r[j])
  {
    OrderIds(Unique(MapRows(rows, InvoiceNoCol)))
  }

  /** The choices are exactly the invoice numbers of the ledger. */
  lemma InvoiceOptionsExactly(rows: seq<Row>, x: string)
    ensures x in InvoiceOptions(rows) <==> exists i :: 0 <= i < |rows| && rows[i].invoiceNo == x
  {
    var col := MapRows(rows, InvoiceNoCol);
    assert x in InvoiceOptions(rows) <==> x in multiset(Unique(col));
    if x in col {
      var i :| 0 <= i < |col| && col[i] == x;
      assert rows[i].invoiceNo == x;
    }
    if i :| 0 <= i < |rows| && rows[i].invoiceNo == x {
      assert col[i] == x;
    }
  }

  /** `str.contains(input.strip(), case=False)` on the invoice number. */
  function Matches(input: string): Row -> bool
  {
    (r: Row) => ContainsIgnoringCase(r.invoiceNo, Trim(input))
  }

  /** The matching rows, in ledger order. */
  function Matching(rows: seq<Row>, input: string): seq<Row>
  {
    Where(rows, Matches(input))
  }

  lemma MatchingExactly(rows: seq<Row>, input: string, x: Row)
    ensures x in Matching(rows, input) <==> x in rows && ContainsIgnoringCase(x.invoiceNo, Trim(input))
  {
    WhereMember(rows, Matches(input), x);
  }

  /**
    What the page shows: nothing before an invoice number is given, a warning,
    or the result table; a search text holding regex syntax is searched for as
    a regular expression, which this model does not evaluate (`RegexQuery`).
  */
  datatype Report = NoQuery | RegexQuery(pattern: string) | NotFound | Found(detail: seq<ShownRow>)

  /** One result line: the row as loaded, its 差额, and its two dates as text. */
  function ShownInvoice(r: Row): ShownRow
  {
    ShownRow(r, UnpaidCol(r), DateText(r.invoiceDate), DateText(r.chequeDate))
  }

  function InvoiceReport(rows: seq<Row>, input: string): Report
  {
    if input == "" then NoQuery
    else if !PlainPattern(Trim(input)) then RegexQuery(Trim(input))
    else
      var f := Matching(rows, input);
      if |f| == 0 then NotFound else Found(MapRows(f, ShownInvoice))
  }

  /**
    The query: the 差额 column, then the loop that rewrites the two date
    columns in place, one after the other.
  */
  method InvoiceLookupQuery(rows: seq<Row>, input: string) returns (report: Report)
    ensures report == InvoiceReport(rows, input)
  {
    if input == "" {
      return NoQuery;
    }
    if !PlainPattern(Trim(input)) {
      return RegexQuery(Trim(input));
    }
    var f := Matching(rows, input);
    if |f| == 0 {
      return NotFound;
    }
    var a := new ShownRow[|f|](i requires 0 <= i < |f| => Unshown(f[i]));
    AssignAll(a, WithDiff);
    for j := 0 to 2
      invariant forall i :: 0 <= i < |f| ==>
        a[i] == ShownRow(f[i], UnpaidCol(f[i]),
                         if j > 0 then DateText(f[i].invoiceDate) else None,
                         if j > 1 then DateText(f[i].chequeDate) else None)
    {
      AssignAll(a, FormatDateColumn(j));
    }
    assert a[..] == MapRows(f, ShownInvoice);
    report := Found(a[..]);
  }

  /**
    The outcomes and when each happens: the warning shows exactly when a plain
    search text is contained in no row's number.
  */
  lemma ReportCases(rows: seq<Row>, input: string)
    ensures InvoiceReport(rows, input).NoQuery? <==> input == ""
    ensures InvoiceReport(rows, input).RegexQuery? <==> input != "" && !PlainPattern(Trim(input))
    ensures InvoiceReport(rows, input).NotFound? <==>
      input != "" && PlainPattern(Trim(input)) && forall x :: x in rows ==> !ContainsIgnoringCase(x.invoiceNo, Trim(input))
  {
    var f := Matching(rows, input);
    if input != "" && PlainPattern(Trim(input)) && |f| == 0 {
      forall x | x in rows ensures !ContainsIgnoringCase(x.invoiceNo, Trim(input)) {
        MatchingExactly(rows, input, x);
      }
    }
    if input != "" && PlainPattern(Trim(input)) && |f| != 0 {
      MatchingExactly(rows, input, f[0]);
    }
  }

  /**
    Choosing an offered invoice number that holds no regex syntax always finds
    its rows, never the warning.
  */
  lemma OptionIsFound(rows: seq<Row>, id: string, x: Row)
    requires id != "" && PlainPattern(id)
    requires x in rows && x.invoiceNo == id
    ensures id in InvoiceOptions(rows)
    ensures InvoiceReport(rows, id).Found?
    ensures x in Matching(rows, id)
  {
    InvoiceOptionsExactly(rows, id);
    PlainTrim(id);
    ContainsOwnTrim(id);
    MatchingExactly(rows, id, x);
  }

  /**
    The result holds the matching rows in ledger order, unchanged but for the
    added 差额 and the two date columns, a missing date staying missing.
  */
  lemma DetailFacts(rows: seq<Row>, input: string)
    requires InvoiceReport(rows, input).Found?
    ensures var d := InvoiceReport(rows, input).detail;
      var f := Matching(rows, input);
      |d| == |f| > 0
      && (forall i :: 0 <= i < |d| ==> f[i] in rows && ContainsIgnoringCase(f[i].invoiceNo, Trim(input)))
      && (forall i :: 0 <= i < |d| ==>
            d[i].row == f[i]
            && d[i].diff == InvoiceCol(f[i]) - PaidCol(f[i])
            && (d[i].invoiceDateText.None? <==> f[i].invoiceDate.None?)
            && (d[i].chequeDateText.None? <==> f[i].chequeDate.None?)
            && (f[i].invoiceDate.Some? ==> d[i].invoiceDateText == Some(FormatDate(f[i].invoiceDate.value)))
            && (f[i].chequeDate.Some? ==> d[i].chequeDateText == Some(FormatDate(f[i].chequeDate.value))))
  {
    var f := Matching(rows, input);
    forall i | 0 <= i < |f| ensures f[i] in rows && ContainsIgnoringCase(f[i].invoiceNo, Trim(input)) {
      MatchingExactly(rows, input, f[i]);
    }
  }
}
