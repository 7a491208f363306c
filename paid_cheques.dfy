/**
  The paid-cheque report: the ledger lines whose cheque was written in a
  date window (开支票日期, both ends included) for the chosen departments; a
  summary of the amounts paid per department with a 总计 line; and a detail
  with one line per (department, cheque, company), digit-only cheque numbers
  first in numeric order and the others after them, each department's lines
  followed by a `<dept> 汇总` line, then 总计.
*/
module PaidCheques {

  import opened Common
  import opened Text
  import opened Sorting
  import opened Dates
  import opened Tables
  import opened Ledger
  import opened Sidebar

  // ---------------------------------------------------------------------------
  // the filtered ledger
  // ---------------------------------------------------------------------------

  /** A row the report keeps: a cheque date in the window and a chosen department. */
  predicate Kept(r: Row, start: ValidDate, end: ValidDate, departments: seq<string>)
  {
    InWindow(r.chequeDate, start, end) && InDepartments(r, departments)
  }

  function KeptMask(start: ValidDate, end: ValidDate, departments: seq<string>): Row -> bool
  {
    r => Kept(r, start, end, departments)
  }

  function Filtered(rows: seq<Row>, start: ValidDate, end: ValidDate, departments: seq<string>): seq<Row>
  {
    Where(rows, KeptMask(start, end, departments))
  }

  /**
    The filter keeps a row exactly when its cheque date is present and lies
    between `start` and `end` inclusive and its department is chosen, and
    keeps it as often as it occurs.
  */
  lemma FilteredRows(rows: seq<Row>, start: ValidDate, end: ValidDate, departments: seq<string>)
    ensures var f := Filtered(rows, start, end, departments);
      (forall i :: 0 <= i < |f| ==>
         f[i].chequeDate.Some? && DateLe(start, f[i].chequeDate.value) && DateLe(f[i].chequeDate.value, end)
         && f[i].dept.Some? && f[i].dept.value in departments)
      && (forall r :: multiset(f)[r] == if Kept(r, start, end, departments) then multiset(rows)[r] else 0)
  {
    WhereCounts(rows, KeptMask(start, end, departments));
  }

  /** With `全部` or nothing chosen, every row with a department and a cheque date in the window is kept. */
  lemma ChoosingAllKeepsWindow(rows: seq<Row>, start: ValidDate, end: ValidDate, chosen: seq<string>)
    requires AllChoice in chosen || chosen == []
    ensures forall r ::
      multiset(Filtered(rows, start, end, SelectedDepartments(rows, chosen)))[r]
      == if InWindow(r.chequeDate, start, end) && r.dept.Some? then multiset(rows)[r] else 0
  {
    var selected := SelectedDepartments(rows, chosen);
    FilteredRows(rows, start, end, selected);
    ChoosingAllKeepsEveryDepartment(rows, chosen);
    forall r ensures multiset(Filtered(rows, start, end, selected))[r]
      == if InWindow(r.chequeDate, start, end) && r.dept.Some? then multiset(rows)[r] else 0
    {
      if r in rows {
        var i :| 0 <= i < |rows| && rows[i] == r;
      }
    }
  }

  // ---------------------------------------------------------------------------
  // the summary per department
  // ---------------------------------------------------------------------------

  /** 实际支付金额, TPS, TVQ. */
  function Columns(): seq<Row -> int>
  {
    [PaidCol, TpsCol, TvqCol]
  }

  /** The per-department payment summary with its 总计 line. */
  function DepartmentSummary(rows: seq<Row>, start: ValidDate, end: ValidDate, departments: seq<string>): seq<SummaryLine>
  {
    Summary(Filtered(rows, start, end, departments), DeptKey, Columns())
  }

  /**
    One line per department with a cheque in the window, in department order,
    holding that department's paid, TPS and TVQ sums; the 总计 line holds the
    sums over every kept row, which are the sums of the department lines.
  */
  lemma SummaryFacts(rows: seq<Row>, start: ValidDate, end: ValidDate, departments: seq<string>)
    ensures var f := Filtered(rows, start, end, departments);
      var s := DepartmentSummary(rows, start, end, departments);
      var keys := Keys(f, DeptKey);
      |s| == |keys| + 1
      && (forall i :: 0 <= i < |keys| ==> s[i] == GroupLine(keys[i], Sums(Group(f, DeptKey, keys[i]), Columns())))
      && s[|keys|] == TotalLine(Sums(f, Columns()))
  {
    var f := Filtered(rows, start, end, departments);
    FilteredRows(rows, start, end, departments);
    KeyedAll(f, DeptKey);
    SummaryTotals(f, DeptKey, Columns());
  }

  // ---------------------------------------------------------------------------
  // one line per (department, cheque, company)
  // ---------------------------------------------------------------------------

  datatype ChequeLine = ChequeLine(
    dept: string,                      // 部门
    cheque: string,                    // 付款支票号
    company: string,                   // 公司名称
    invoices: string,                  // 发票号: the distinct invoice numbers, joined by ','
    chequeDate: Option<ValidDate>,     // 开支票日期: the first present one
    paid: int,                         // 实际支付金额
    tps: int,                          // TPS
    tvq: int                           // TVQ
  )

  /** The aggregation of the rows of one (department, cheque, company) group. */
  function Aggregate(d: string, c: string, co: string, g: seq<Row>): ChequeLine
  {
    ChequeLine(d, c, co,
      Join(Unique(MapRows(g, InvoiceNoCol)), ','),
      FirstPresent(MapRows(g, ChequeDateCol)),
      ColumnSum(g, PaidCol), ColumnSum(g, TpsCol), ColumnSum(g, TvqCol))
  }

  /** The line of one company's rows. */
  function CompanyPiece(d: string, c: string, g: seq<Row>): string -> seq<ChequeLine>
  {
    co => [Aggregate(d, c, co, Group(g, CompanyKey, co))]
  }

  /** One department's and one cheque's rows, one line per company, in company order. */
  function LinesByCompany(d: string, c: string, g: seq<Row>): seq<ChequeLine>
  {
    ConcatKeys(Keys(g, CompanyKey), CompanyPiece(d, c, g))
  }

  function ChequePiece(d: string, g: seq<Row>): string -> seq<ChequeLine>
  {
    c => LinesByCompany(d, c, Group(g, ChequeKey, c))
  }

  /** One department's rows, cheque by cheque in cheque order, company by company. */
  function LinesByCheque(d: string, g: seq<Row>): seq<ChequeLine>
  {
    ConcatKeys(Keys(g, ChequeKey), ChequePiece(d, g))
  }

  function DeptPiece(f: seq<Row>): string -> seq<ChequeLine>
  {
    d => LinesByCheque(d, Group(f, DeptKey, d))
  }

  /**
    `groupby(['部门', '付款支票号', '公司名称']).agg(...)`: one line per key
    triple present, in the order of the tuples, which is department order,
    then cheque order within a department, then company order within a cheque.
  */
  function Grouped(f: seq<Row>): seq<ChequeLine>
  {
    ConcatKeys(Keys(f, DeptKey), DeptPiece(f))
  }

  /** The rows of one key triple. */
  function TripleRows(f: seq<Row>, d: string, c: string, co: string): seq<Row>
  {
    Group(Group(Group(f, DeptKey, d), ChequeKey, c), CompanyKey, co)
  }

  /** The rows of a triple are the rows with that department, cheque and company, each as often as it occurs. */
  lemma TripleRowsCounts(f: seq<Row>, d: string, c: string, co: string)
    ensures forall x ::
      multiset(TripleRows(f, d, c, co))[x]
      == if x.dept == Some(d) && x.chequeNo == c && x.company == co then multiset(f)[x] else 0
  {
    GroupCounts(f, DeptKey, d);
    GroupCounts(Group(f, DeptKey, d), ChequeKey, c);
    GroupCounts(Group(Group(f, DeptKey, d), ChequeKey, c), CompanyKey, co);
  }

  lemma ChequePieceOnly(d: string, g: seq<Row>, c: string, l: ChequeLine)
    requires l in ChequePiece(d, g)(c)
    ensures var gc := Group(g, ChequeKey, c);
      l.dept == d && l.cheque == c
      && |Group(gc, CompanyKey, l.company)| > 0 && l == Aggregate(d, c, l.company, Group(gc, CompanyKey, l.company))
  {
    var gc := Group(g, ChequeKey, c);
    assert l in LinesByCompany(d, c, gc);
    CompanyLineOnly(d, c, gc, l);
    KeyGroupNonEmpty(gc, CompanyKey, l.company);
  }

  lemma CompanyLineOnly(d: string, c: string, gc: seq<Row>, l: ChequeLine)
    requires l in LinesByCompany(d, c, gc)
    ensures l.company in Keys(gc, CompanyKey)
    ensures l == Aggregate(d, c, l.company, Group(gc, CompanyKey, l.company))
  {
    var co := ConcatKeysOnly(Keys(gc, CompanyKey), CompanyPiece(d, c, gc), l);
    assert CompanyPiece(d, c, gc)(co) == [Aggregate(d, c, co, Group(gc, CompanyKey, co))];
  }

  lemma DeptPieceOnly(f: seq<Row>, d: string, l: ChequeLine)
    requires l in DeptPiece(f)(d)
    ensures var g := TripleRows(f, d, l.cheque, l.company);
      l.dept == d && |g| > 0 && l == Aggregate(d, l.cheque, l.company, g)
  {
    var gd := Group(f, DeptKey, d);
    var c := ConcatKeysOnly(Keys(gd, ChequeKey), ChequePiece(d, gd), l);
    ChequePieceOnly(d, gd, c, l);
  }

  /**
    Every line aggregates the rows of its own department, cheque and company,
    of which there is at least one, and its department is one of the rows'.
  */
  lemma GroupedSound(f: seq<Row>, l: ChequeLine)
    requires l in Grouped(f)
    ensures var g := TripleRows(f, l.dept, l.cheque, l.company);
      l.dept in Keys(f, DeptKey) && |g| > 0 && l == Aggregate(l.dept, l.cheque, l.company, g)
  {
    var d := ConcatKeysOnly(Keys(f, DeptKey), DeptPiece(f), l);
    DeptPieceOnly(f, d, l);
  }

  /** A row with a department is aggregated into the line of its department, cheque and company. */
  lemma GroupedComplete(f: seq<Row>, i: nat)
    requires i < |f| && f[i].dept.Some?
    ensures var x := f[i];
      Aggregate(x.dept.value, x.chequeNo, x.company, TripleRows(f, x.dept.value, x.chequeNo, x.company)) in Grouped(f)
  {
    var x := f[i];
    var d, c, co := x.dept.value, x.chequeNo, x.company;
    var gd := Group(f, DeptKey, d);
    var gc := Group(gd, ChequeKey, c);
    InGroup(f, DeptKey, x);
    InGroup(gd, ChequeKey, x);
    InGroup(gc, CompanyKey, x);
    var l := Aggregate(d, c, co, TripleRows(f, d, c, co));
    assert l in CompanyPiece(d, c, gc)(co);
    ConcatKeysHas(Keys(gc, CompanyKey), CompanyPiece(d, c, gc), co, l);
    assert l in ChequePiece(d, gd)(c);
    ConcatKeysHas(Keys(gd, ChequeKey), ChequePiece(d, gd), c, l);
    assert l in DeptPiece(f)(d);
    ConcatKeysHas(Keys(f, DeptKey), DeptPiece(f), d, l);
  }

  /**
    The 发票号 of a line lists each invoice number of its rows once (`unique`
    after `dropna`), when no invoice number itself holds a comma.
  */
  lemma AggregateInvoices(d: string, c: string, co: string, g: seq<Row>)
    requires |g| > 0
    requires forall i :: 0 <= i < |g| ==> ',' !in g[i].invoiceNo
    ensures var parts := Split(Aggregate(d, c, co, g).invoices, ',');
      NoDuplicates(parts)
      && forall x :: x in parts <==> exists i :: 0 <= i < |g| && g[i].invoiceNo == x
  {
    var col := MapRows(g, InvoiceNoCol);
    var u := Unique(col);
    assert col[0] in u;
    forall i | 0 <= i < |u| ensures ',' !in u[i] {
      assert u[i] in col;
      var k :| 0 <= k < |col| && col[k] == u[i];
    }
    SplitJoin(u, ',');
    forall x ensures x in u <==> exists i :: 0 <= i < |g| && g[i].invoiceNo == x {
      if x in col {
        var k :| 0 <= k < |col| && col[k] == x;
        assert g[k].invoiceNo == x;
      }
      if exists i :: 0 <= i < |g| && g[i].invoiceNo == x {
        var k :| 0 <= k < |g| && g[k].invoiceNo == x;
        assert col[k] == x;
      }
    }
  }

  /** The 开支票日期 of a line is the date of its first row, present and in the window when every row's is. */
  lemma AggregateChequeDate(d: string, c: string, co: string, g: seq<Row>, start: ValidDate, end: ValidDate)
    requires |g| > 0
    requires forall i :: 0 <= i < |g| ==> InWindow(g[i].chequeDate, start, end)
    ensures var l := Aggregate(d, c, co, g);
      l.chequeDate == g[0].chequeDate && InWindow(l.chequeDate, start, end)
  {
    var col := MapRows(g, ChequeDateCol);
    assert col[0].Some?;
  }

  // ---------------------------------------------------------------------------
  // the amounts add up
  // ---------------------------------------------------------------------------

  function LinePaid(l: ChequeLine): int { l.paid }
  function LineTps(l: ChequeLine): int { l.tps }
  function LineTvq(l: ChequeLine): int { l.tvq }

  /** The amount columns of a line: 0 paid, 1 TPS, 2 TVQ. */
  function LineCol(j: nat): ChequeLine -> int
  {
    if j == 0 then LinePaid else if j == 1 then LineTps else LineTvq
  }

  lemma AggregateColumn(d: string, c: string, co: string, g: seq<Row>, j: nat)
    ensures LineCol(j)(Aggregate(d, c, co, g)) == ColumnSum(g, RowCol(j))
  {
  }

  /** A one-company piece sums as that company's rows. */
  lemma CompanyPieceSum(d: string, c: string, g: seq<Row>, co: string, j: nat)
    ensures ColumnSum(CompanyPiece(d, c, g)(co), LineCol(j)) == ColumnSum(Group(g, CompanyKey, co), RowCol(j))
  {
    var l := Aggregate(d, c, co, Group(g, CompanyKey, co));
    assert CompanyPiece(d, c, g)(co) == [l];
    ColumnSumSingle(l, LineCol(j));
    AggregateColumn(d, c, co, Group(g, CompanyKey, co), j);
  }

  lemma ByCompanyTotal(d: string, c: string, g: seq<Row>, j: nat)
    ensures ColumnSum(LinesByCompany(d, c, g), LineCol(j)) == ColumnSum(g, RowCol(j))
  {
    var keys := Keys(g, CompanyKey);
    forall co | co in keys
      ensures ColumnSum(CompanyPiece(d, c, g)(co), LineCol(j)) == ColumnSum(Group(g, CompanyKey, co), RowCol(j))
    {
      CompanyPieceSum(d, c, g, co, j);
    }
    ConcatKeysSum(keys, CompanyPiece(d, c, g), LineCol(j), g, CompanyKey, RowCol(j));
    GroupSumsAddUp(g, CompanyKey, keys, RowCol(j));
    KeyedAll(g, CompanyKey);
  }

  lemma ByChequeTotal(d: string, g: seq<Row>, j: nat)
    ensures ColumnSum(LinesByCheque(d, g), LineCol(j)) == ColumnSum(g, RowCol(j))
  {
    var keys := Keys(g, ChequeKey);
    forall c | c in keys
      ensures ColumnSum(ChequePiece(d, g)(c), LineCol(j)) == ColumnSum(Group(g, ChequeKey, c), RowCol(j))
    {
      ByCompanyTotal(d, c, Group(g, ChequeKey, c), j);
    }
    ConcatKeysSum(keys, ChequePiece(d, g), LineCol(j), g, ChequeKey, RowCol(j));
    GroupSumsAddUp(g, ChequeKey, keys, RowCol(j));
    KeyedAll(g, ChequeKey);
  }

  /** The lines' paid, TPS and TVQ columns sum to the same columns of the rows: nothing is lost or counted twice. */
  lemma GroupedSum(f: seq<Row>, j: nat)
    requires forall i :: 0 <= i < |f| ==> f[i].dept.Some?
    ensures ColumnSum(Grouped(f), LineCol(j)) == ColumnSum(f, RowCol(j))
  {
    var keys := Keys(f, DeptKey);
    forall d | d in keys
      ensures ColumnSum(DeptPiece(f)(d), LineCol(j)) == ColumnSum(Group(f, DeptKey, d), RowCol(j))
    {
      ByChequeTotal(d, Group(f, DeptKey, d), j);
    }
    ConcatKeysSum(keys, DeptPiece(f), LineCol(j), f, DeptKey, RowCol(j));
    GroupSumsAddUp(f, DeptKey, keys, RowCol(j));
    KeyedAll(f, DeptKey);
  }

  /** The department of a line, as `groupby('部门')` reads it. */
  function LineDeptKey(l: ChequeLine): Option<string> { Some(l.dept) }

  /** Every line of one department's piece is of that department. */
  lemma DeptPieceDepartment(f: seq<Row>, d: string)
    ensures forall i :: 0 <= i < |DeptPiece(f)(d)| ==> LineDeptKey(DeptPiece(f)(d)[i]) == Some(d)
  {
    forall i | 0 <= i < |DeptPiece(f)(d)| ensures DeptPiece(f)(d)[i].dept == d {
      assert DeptPiece(f)(d)[i] in DeptPiece(f)(d);
      DeptPieceOnly(f, d, DeptPiece(f)(d)[i]);
    }
  }

  /** A department's lines sum to that department's rows. */
  lemma DeptLinesSum(f: seq<Row>, d: string, j: nat)
    ensures ColumnSum(Group(Grouped(f), LineDeptKey, d), LineCol(j)) == ColumnSum(Group(f, DeptKey, d), RowCol(j))
  {
    var keys := Keys(f, DeptKey);
    forall k, i | k in keys && 0 <= i < |DeptPiece(f)(k)| ensures LineDeptKey(DeptPiece(f)(k)[i]) == Some(k) {
      DeptPieceDepartment(f, k);
    }
    ConcatKeysGroup(keys, DeptPiece(f), LineDeptKey, d);
    if d in keys {
      ByChequeTotal(d, Group(f, DeptKey, d), j);
    } else {
      GroupOfAbsentKey(f, DeptKey, d);
    }
  }

  // ---------------------------------------------------------------------------
  // `sort_cheques`: digit-only cheque numbers first, by value
  // ---------------------------------------------------------------------------

  /** 支票分类 0: the cheque number `isnumeric()`. */
  predicate NumericLine(l: ChequeLine) { IsNumeric(l.cheque) }

  /** 支票分类 1. */
  predicate TextLine(l: ChequeLine) { !IsNumeric(l.cheque) }

  /** 支票排序值 of a class-0 line: `int` of its cheque number. */
  function ChequeValue(l: ChequeLine): int { NumValue(l.cheque) }

  /**
    `sort_values(by=['支票分类', '支票排序值'])`: the class-0 lines by value,
    then the class-1 lines, whose 支票排序值 is `inf` for all of them, so the
    stable sort leaves them in the order they came.
  */
  function SortCheques(lines: seq<ChequeLine>): seq<ChequeLine>
  {
    SortByKey(Where(lines, NumericLine), ChequeValue) + Where(lines, TextLine)
  }

  /** Sorting the cheques adds and loses no line. */
  lemma SortChequesPermutation(lines: seq<ChequeLine>)
    ensures multiset(SortCheques(lines)) == multiset(lines)
  {
    WhereCounts(lines, NumericLine);
    WhereCounts(lines, TextLine);
    var nums := Where(lines, NumericLine);
    var texts := Where(lines, TextLine);
    assert multiset(nums) + multiset(texts) == multiset(lines);
  }

  /** The sorted part holds the digit-only cheques, and only those. */
  lemma SortedPartIsNumeric(lines: seq<ChequeLine>)
    ensures forall l :: l in SortByKey(Where(lines, NumericLine), ChequeValue) ==> NumericLine(l)
  {
    var nums := Where(lines, NumericLine);
    var s := SortByKey(nums, ChequeValue);
    forall l | l in s ensures NumericLine(l) {
      assert l in multiset(nums);
    }
  }

  /** Every digit-only cheque comes before every other cheque. */
  lemma SortChequesClasses(lines: seq<ChequeLine>)
    ensures var r := SortCheques(lines);
      forall i, j :: 0 <= i < j < |r| && NumericLine(r[j]) ==> NumericLine(r[i])
  {
    var s := SortByKey(Where(lines, NumericLine), ChequeValue);
    var texts := Where(lines, TextLine);
    var r := s + texts;
    SortedPartIsNumeric(lines);
    forall k | 0 <= k < |s| ensures NumericLine(r[k]) {
      assert r[k] == s[k];
      assert s[k] in s;
    }
    forall k | |s| <= k < |r| ensures !NumericLine(r[k]) {
      assert r[k] == texts[k - |s|];
      assert TextLine(texts[k - |s|]);
    }
  }

  /** The digit-only cheques are in non-decreasing numeric order. */
  lemma SortChequesValues(lines: seq<ChequeLine>)
    ensures var r := SortCheques(lines);
      forall i, j :: 0 <= i < j < |r| && NumericLine(r[j]) ==> ChequeValue(r[i]) <= ChequeValue(r[j])
  {
    var s := SortByKey(Where(lines, NumericLine), ChequeValue);
    var texts := Where(lines, TextLine);
    var r := s + texts;
    forall i, j | 0 <= i < j < |r| && NumericLine(r[j]) ensures ChequeValue(r[i]) <= ChequeValue(r[j]) {
      if j < |s| {
        assert r[i] == s[i] && r[j] == s[j];
      }
    }
  }

  /** The other cheques keep the order they had. */
  lemma SortChequesKeepsTextOrder(lines: seq<ChequeLine>)
    ensures Where(SortCheques(lines), TextLine) == Where(lines, TextLine)
  {
    var nums := Where(lines, NumericLine);
    var s := SortByKey(nums, ChequeValue);
    var texts := Where(lines, TextLine);
    WhereAppend(s, texts, TextLine);
    forall i | 0 <= i < |s| ensures !TextLine(s[i]) {
      assert s[i] in multiset(nums);
    }
    WhereNone(s, TextLine);
    WhereAll(texts, TextLine);
  }

  // ---------------------------------------------------------------------------
  // the detail table
  // ---------------------------------------------------------------------------

  /** 实际支付金额, TPS, TVQ of a line. */
  function LineColumns(): seq<ChequeLine -> int>
  {
    [LinePaid, LineTps, LineTvq]
  }

  /** `summary`: the grouped lines of the kept rows, cheques sorted. */
  function ReportLines(rows: seq<Row>, start: ValidDate, end: ValidDate, departments: seq<string>): seq<ChequeLine>
  {
    SortCheques(Grouped(Filtered(rows, start, end, departments)))
  }

  /** The report loop: per department, its lines in sorted order and its 汇总 line; finally 总计. */
  method PaidDetail(rows: seq<Row>, start: ValidDate, end: ValidDate, departments: seq<string>)
    returns (lines: seq<Line<ChequeLine>>)
    ensures lines == Detail(ReportLines(rows, start, end, departments), LineDeptKey, None, LineColumns())
  {
    var summary := ReportLines(rows, start, end, departments);
    lines := BuildDetail(summary, LineDeptKey, LineColumns());
  }

  /** Column sums that agree one by one make equal sums rows. */
  lemma SumsAgree(s: seq<ChequeLine>, g: seq<Row>)
    requires forall j :: 0 <= j < 3 ==> ColumnSum(s, LineCol(j)) == ColumnSum(g, RowCol(j))
    ensures Sums(s, LineColumns()) == Sums(g, Columns())
  {
    assert LineColumns() == [LineCol(0), LineCol(1), LineCol(2)];
    assert Columns() == [RowCol(0), RowCol(1), RowCol(2)];
  }

  /**
    The detail lists every grouped line once, its 总计 line holds the paid,
    TPS and TVQ sums of the kept rows (the summary's 总计), and its 汇总 lines
    add up to the 总计.
  */
  lemma DetailFacts(rows: seq<Row>, start: ValidDate, end: ValidDate, departments: seq<string>)
    ensures var f := Filtered(rows, start, end, departments);
      var d := Detail(ReportLines(rows, start, end, departments), LineDeptKey, None, LineColumns());
      multiset(ItemRows(d)) == multiset(Grouped(f))
      && d[|d| - 1] == GrandTotal(Sums(f, Columns()))
      && forall j :: 0 <= j < 3 ==> SubtotalColumn(d, j) == d[|d| - 1].sums[j]
  {
    var f := Filtered(rows, start, end, departments);
    var s := ReportLines(rows, start, end, departments);
    FilteredRows(rows, start, end, departments);
    SortChequesPermutation(Grouped(f));
    KeyedAll(s, LineDeptKey);
    Tables.DetailFacts(s, LineDeptKey, None, LineColumns());
    forall j | 0 <= j < 3 ensures ColumnSum(s, LineCol(j)) == ColumnSum(f, RowCol(j)) {
      ColumnSumPermutation(s, Grouped(f), LineCol(j));
      GroupedSum(f, j);
    }
    SumsAgree(s, f);
  }

  /**
    Each department's block lists lines of that department only, its grouped
    lines each once, and ends in a 汇总 line equal to that department's line
    of the summary table.
  */
  lemma DetailBlockFacts(rows: seq<Row>, start: ValidDate, end: ValidDate, departments: seq<string>, k: string)
    ensures var f := Filtered(rows, start, end, departments);
      var s := ReportLines(rows, start, end, departments);
      var b := Block(s, LineDeptKey, k, None, LineColumns());
      var listed := ItemRows(b);
      multiset(listed) == multiset(Group(s, LineDeptKey, k))
      && (forall i :: 0 <= i < |listed| ==> listed[i].dept == k)
      && b[|b| - 1] == Subtotal(k, Sums(Group(f, DeptKey, k), Columns()))
  {
    var f := Filtered(rows, start, end, departments);
    var s := ReportLines(rows, start, end, departments);
    BlockFacts(s, LineDeptKey, k, None, LineColumns());
    SortChequesPermutation(Grouped(f));
    forall j | 0 <= j < 3 ensures ColumnSum(Group(s, LineDeptKey, k), LineCol(j)) == ColumnSum(Group(f, DeptKey, k), RowCol(j)) {
      GroupSumPermutation(s, Grouped(f), LineDeptKey, k, LineCol(j));
      DeptLinesSum(f, k, j);
    }
    SumsAgree(Group(s, LineDeptKey, k), Group(f, DeptKey, k));
  }

  /** Lines listing the grouped lines of `f`, in any order, have a department exactly when `f` has rows of it. */
  lemma LinesDepartments(f: seq<Row>, s: seq<ChequeLine>, k: string)
    requires multiset(s) == multiset(Grouped(f))
    ensures k in Keys(s, LineDeptKey) <==> k in Keys(f, DeptKey)
  {
    if k in Keys(s, LineDeptKey) {
      LineDepartmentIsRows(f, s, k);
    }
    if k in Keys(f, DeptKey) {
      RowDepartmentHasLine(f, s, k);
    }
  }

  lemma LineDepartmentIsRows(f: seq<Row>, s: seq<ChequeLine>, k: string)
    requires multiset(s) == multiset(Grouped(f))
    requires k in Keys(s, LineDeptKey)
    ensures k in Keys(f, DeptKey)
  {
    var i :| 0 <= i < |s| && LineDeptKey(s[i]) == Some(k);
    assert s[i] in multiset(Grouped(f));
    GroupedSound(f, s[i]);
  }

  lemma RowDepartmentHasLine(f: seq<Row>, s: seq<ChequeLine>, k: string)
    requires multiset(s) == multiset(Grouped(f))
    requires k in Keys(f, DeptKey)
    ensures k in Keys(s, LineDeptKey)
  {
    var m :| 0 <= m < |f| && DeptKey(f[m]) == Some(k);
    var x := f[m];
    GroupedComplete(f, m);
    var l := Aggregate(k, x.chequeNo, x.company, TripleRows(f, k, x.chequeNo, x.company));
    assert l in multiset(s);
    LineKeyListed(s, l);
  }

  lemma LineKeyListed(s: seq<ChequeLine>, l: ChequeLine)
    requires l in s
    ensures l.dept in Keys(s, LineDeptKey)
  {
    InGroup(s, LineDeptKey, l);
  }

  /** The detail has a block for exactly the departments of the summary table. */
  lemma DetailDepartments(rows: seq<Row>, start: ValidDate, end: ValidDate, departments: seq<string>, k: string)
    ensures k in Keys(ReportLines(rows, start, end, departments), LineDeptKey)
        <==> k in Keys(Filtered(rows, start, end, departments), DeptKey)
  {
    var f := Filtered(rows, start, end, departments);
    SortChequesPermutation(Grouped(f));
    LinesDepartments(f, ReportLines(rows, start, end, departments), k);
  }

  /** `highlight_summary`: 汇总 lines and the 总计 line are coloured; a cheque line by its department's text. */
  function DetailMark(line: Line<ChequeLine>): (m: Mark)
    ensures line.Subtotal? ==> m == SubtotalMark
    ensures line.GrandTotal? ==> m == TotalMark
    ensures line.Item? ==> m == MarkOf(Some(line.row.dept))
  {
    LineMarks(line, LineDeptKey);
    MarkOf(LineLabel(line, LineDeptKey))
  }
}
