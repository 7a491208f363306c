/**
  The cash-refund report. Each line of the cash sheet is booked under a
  category code and a month (年月). The report sums the lines per month,
  overall and per category, into a summary table framed by a total row,
  and lists the lines of one chosen month cheque by cheque, each cheque's
  table opened by a subtotal row.
*/
module CashRefund {

  import opened Common
  import opened Text
  import opened Sorting
  import opened Dates
  import opened Tables

  /** One line of the cash sheet. Amounts are in cents; `None` is NaN / NaT. */
  datatype CashRow = CashRow(
    supplier: Option<string>,        // 供应商
    receiptDate: Option<ValidDate>,  // 小票日期
    category: Option<string>,        // 分类
    code: CodeCell,                  // 分类号码
    total: Option<int>,              // 总金额
    tps: Option<int>,                // TPS
    tvq: Option<int>,                // TVQ
    net: Option<int>,                // 净值
    cheque: Option<string>,          // 支票号
    chequeAmount: Option<int>,       // 支票金额
    invoiceDate: Option<ValidDate>,  // 开票日期
    month: Option<string>            // 年月
  )

  /**
    The 分类号码 cell: the sheet's text as loaded, or, once `pd.to_numeric`
    has overwritten the column, the number it read (`None` for NaN).
  */
  datatype CodeCell = CodeText(text: Option<string>) | CodeNumber(number: Option<int>)

  function MonthKey(r: CashRow): Option<string> { r.month }
  function ChequeKey(r: CashRow): Option<string> { r.cheque }

  // the amount columns, a missing amount counting 0 as in `sum()`
  function TotalCol(r: CashRow): int { OrZero(r.total) }
  function TpsCol(r: CashRow): int { OrZero(r.tps) }
  function TvqCol(r: CashRow): int { OrZero(r.tvq) }
  function NetCol(r: CashRow): int { OrZero(r.net) }

  // ---------------------------------------------------------------------------
  // category codes
  // ---------------------------------------------------------------------------

  /** The labels of the categories of codes 1 to 18, in code order. */
  const CategoryLabels: seq<string> := [
    "PURCHASE", "OFFICE", "R/M", "BANK", "BOOKKEEPING",
    "Auto", "EQUIPMENT RENTAL", "TEL", "Tax & License",
    "Equip.", "LHP", "Leasehold Improvement",
    "Brokerage", "Advertisement", "Computer",
    "Hino Truck", "Transport", "MEALS"
  ]

  /** The category name of code `c` (`1_PURCHASE` … `18_MEALS`): its code, `_`, its label. */
  function CategoryName(c: int): string
    requires 1 <= c <= |CategoryLabels|
  {
    NatText(c) + "_" + CategoryLabels[c - 1]
  }

  /**
    `pd.to_numeric(code, errors='coerce')` as far as `category_mapping` can
    use it: the mapping's keys are whole numbers, so the code is the whole
    number the text reads as, an optional sign, digits, and optionally a point
    followed by zeros only (`7`, `+7`, `-7`, `7.0`, `7.`). A missing code, text
    that is not a number, and a number with a fraction give no code.
  */
  function ParseCode(s: Option<string>): (r: Option<int>)
    ensures s.None? ==> r.None?
    ensures s.Some? && IsNumeric(s.value) ==> r == Some(NumValue(s.value))
  {
    if s.None? then None
    else if |s.value| > 0 && s.value[0] == '-' then
      var u := ParseUnsigned(s.value[1..]);
      if u.Some? then Some(-u.value) else None
    else if |s.value| > 0 && s.value[0] == '+' then ParseUnsigned(s.value[1..])
    else ParseUnsigned(s.value)
  }

  predicate AllZeros(s: string) { forall i :: 0 <= i < |s| ==> s[i] == '0' }

  /** Digits, then possibly a point and zeros: their whole-number value. */
  function ParseUnsigned(t: string): (r: Option<int>)
    ensures r.Some? ==> r.value >= 0
  {
    var whole := LeadingDigits(t);
    if whole == [] then None
    else if |whole| == |t| then Some(NumValue(t))
    else if t[|whole|] == '.' && AllZeros(t[|whole| + 1..]) then Some(NumValue(whole))
    else None
  }

  /** A code written out in digits reads back as itself. */
  lemma ParseCodeOfText(n: nat)
    ensures ParseCode(Some(NatText(n))) == Some(n)
  {
    NatTextValue(n);
  }

  /** A sign in front of a whole number is read with it. */
  lemma ParseCodeSigned(n: nat)
    ensures ParseCode(Some("+" + NatText(n))) == Some(n as int)
    ensures ParseCode(Some("-" + NatText(n))) == Some(-(n as int))
  {
    NatTextValue(n);
    assert ("+" + NatText(n))[1..] == NatText(n);
    assert ("-" + NatText(n))[1..] == NatText(n);
  }

  /** A point followed by zeros only leaves the whole number. */
  lemma ParseCodeZeros(n: nat, zeros: nat)
    ensures ParseCode(Some(NatText(n) + "." + seq(zeros, _ => '0'))) == Some(n as int)
  {
    var t := NatText(n);
    var z := seq(zeros, _ => '0');
    var s := t + ("." + z);
    assert t + "." + z == s;
    LeadingDigitsOfPrefix(t, "." + z);
    assert s[|t|] == '.' && s[|t| + 1..] == z;
    assert AllZeros(z);
    assert s[0] == t[0];
    NatTextValue(n);
  }

  /** Any other fraction gives no code. */
  lemma ParseCodeFraction(n: nat)
    ensures ParseCode(Some(NatText(n) + ".5")).None?
  {
    var t := NatText(n);
    LeadingDigitsOfPrefix(t, ".5");
    var s := t + ".5";
    assert s[|t|] == '.' && s[|t| + 1..] == "5";
    assert !AllZeros("5") by { assert "5"[0] != '0'; }
    assert s[0] == t[0] && IsDigit(t[0]);
  }



  /** `category_mapping`: the codes 1 to 18 name a category; any other code, or none, names none. */
  function CategoryOf(code: Option<int>): (r: Option<string>)
    ensures r.Some? <==> code.Some? && 1 <= code.value <= 18
  {
    if code.Some? && 1 <= code.value <= |CategoryLabels| then Some(CategoryName(code.value)) else None
  }

  /** Every category name opens with its own code, so no two codes share a name. */
  lemma CategoryNameCode(c: int)
    requires 1 <= c <= 18
    ensures CategoryOf(Some(c)).Some?
    ensures NumValue(LeadingDigits(CategoryOf(Some(c)).value)) == c
  {
    CodePrefix(c, CategoryLabels[c - 1]);
  }

  /** The digits in front of `_` in `<code>_<suffix>` read back as the code. */
  lemma CodePrefix(n: nat, suffix: string)
    ensures NumValue(LeadingDigits(NatText(n) + "_" + suffix)) == n
  {
    var rest := "_" + suffix;
    assert NatText(n) + "_" + suffix == NatText(n) + rest;
    LeadingDigitsOfPrefix(NatText(n), rest);
    NatTextValue(n);
  }

  /** Two codes that name a category name the same one only when they are equal. */
  lemma CategoryOfInjective(a: Option<int>, b: Option<int>)
    requires CategoryOf(a).Some? && CategoryOf(a) == CategoryOf(b)
    ensures a == b
  {
    CategoryNameCode(a.value);
    CategoryNameCode(b.value);
  }

  /** The number a code cell stands for: the text read as a number, or the number already written. */
  function CodeValue(c: CodeCell): Option<int>
  {
    match c
    case CodeText(t) => ParseCode(t)
    case CodeNumber(n) => n
  }

  /** The category a cash line is summed under (`分类名称`). */
  function CategoryOfRow(r: CashRow): Option<string> { CategoryOf(CodeValue(r.code)) }

  /**
    The 分类号码 column rewritten by `pd.to_numeric(..., errors='coerce')`:
    the cell becomes the number its text reads as, or NaN; every other column
    and the line's category stay as they were.
  */
  function CoerceCode(r: CashRow): (c: CashRow)
    ensures c.code.CodeNumber?
    ensures r.code.CodeText? ==> c.code.number == ParseCode(r.code.text)
    ensures r.code.CodeNumber? ==> c == r
    ensures c.(code := r.code) == r
    ensures CategoryOfRow(c) == CategoryOfRow(r)
  {
    r.(code := CodeNumber(CodeValue(r.code)))
  }

  /** The sheet after its 分类号码 column is overwritten; doing it twice changes nothing more. */
  lemma CoerceCodeIdempotent(r: CashRow)
    ensures CoerceCode(CoerceCode(r)) == CoerceCode(r)
  {
  }

  function CoerceCodes(sheet: seq<CashRow>): seq<CashRow>
  {
    MapRows(sheet, CoerceCode)
  }

  function InCategory(name: string): CashRow -> bool { r => CategoryOfRow(r) == Some(name) }

  // ---------------------------------------------------------------------------
  // the monthly summary
  // ---------------------------------------------------------------------------

  /** One row of the summary table: the month (or 总计), its three sums, and one cell per category. */
  datatype MonthRow = MonthRow(month: string, total: int, tps: int, tvq: int, cats: seq<Option<int>>)

  function MonthTotal(r: MonthRow): int { r.total }
  function MonthTps(r: MonthRow): int { r.tps }
  function MonthTvq(r: MonthRow): int { r.tvq }

  /** A category cell as a number, a missing one counting 0 as in `sum()`. */
  function CellCol(j: nat): MonthRow -> int
  {
    (r: MonthRow) => if j < |r.cats| then OrZero(r.cats[j]) else 0
  }

  /** The lines of one month in one category (the pivot table's cell). */
  function CategoryMonth(rows: seq<CashRow>, name: string, m: string): seq<CashRow>
  {
    Group(Where(rows, InCategory(name)), MonthKey, m)
  }

  /**
    The pivot cell of a month and a category: the net sum of the month's
    lines in that category, missing when there is none. The outer merge
    leaves a month with no categorised line missing in every category.
  */
  function PivotCell(rows: seq<CashRow>, name: string, m: string): Option<int>
  {
    var g := CategoryMonth(rows, name, m);
    if |g| == 0 then None else Some(ColumnSum(g, NetCol))
  }

  /** The merged row of one month: `core_summary` joined with `category_pivot_nan`. */
  function MonthRowOf(rows: seq<CashRow>, m: string): (r: MonthRow)
    ensures |r.cats| == |CategoryLabels|
  {
    var g := Group(rows, MonthKey, m);
    MonthRow(m, ColumnSum(g, TotalCol), ColumnSum(g, TpsCol), ColumnSum(g, TvqCol),
      seq(|CategoryLabels|, j requires 0 <= j < |CategoryLabels| => PivotCell(rows, CategoryName(j + 1), m)))
  }

  function MonthRowsOf(rows: seq<CashRow>): string -> MonthRow { m => MonthRowOf(rows, m) }

  /** `merged_summary_nan` sorted by 年月: one row per month that occurs. */
  function Merged(rows: seq<CashRow>): seq<MonthRow>
  {
    MapRows(Keys(rows, MonthKey), MonthRowsOf(rows))
  }

  /** The lambda applied to a category cell: a zero becomes missing. */
  function BlankCell(c: Option<int>): Option<int>
  {
    if c == Some(0) then None else c
  }

  /** A row with its first `n` category cells blanked. */
  function BlankedUpTo(r: MonthRow, n: nat): (b: MonthRow)
    ensures b.month == r.month && b.total == r.total && b.tps == r.tps && b.tvq == r.tvq
    ensures |b.cats| == |r.cats|
  {
    r.(cats := seq(|r.cats|, k requires 0 <= k < |r.cats| => if k < n then BlankCell(r.cats[k]) else r.cats[k]))
  }

  /** A row with every category cell blanked. */
  function BlankZeros(r: MonthRow): MonthRow
  {
    BlankedUpTo(r, |r.cats|)
  }

  lemma BlankedNone(r: MonthRow)
    ensures BlankedUpTo(r, 0) == r
  {
    assert BlankedUpTo(r, 0).cats == r.cats;
  }

  lemma BlankedStep(r: MonthRow, j: nat)
    requires j < |r.cats|
    ensures var b := BlankedUpTo(r, j);
      BlankedUpTo(r, j + 1) == b.(cats := b.cats[j := BlankCell(b.cats[j])])
  {
    var b := BlankedUpTo(r, j);
    assert BlankedUpTo(r, j + 1).cats == b.cats[j := BlankCell(b.cats[j])];
  }

  /**
    Step 8: every category column is rewritten in place, a zero becoming
    missing; the month and the three sums are not category columns and are
    left alone.
  */
  method BlankZeroCategories(a: array<MonthRow>)
    requires forall i :: 0 <= i < a.Length ==> |a[i].cats| == |CategoryLabels|
    modifies a
    ensures a[..] == MapRows(old(a[..]), BlankZeros)
  {
    forall i | 0 <= i < a.Length {
      BlankedNone(a[i]);
    }
    for j := 0 to |CategoryLabels|
      invariant forall i :: 0 <= i < a.Length ==> a[i] == BlankedUpTo(old(a[i]), j)
    {
      for i := 0 to a.Length
        invariant forall r :: 0 <= r < i ==> a[r] == BlankedUpTo(old(a[r]), j + 1)
        invariant forall r :: i <= r < a.Length ==> a[r] == BlankedUpTo(old(a[r]), j)
      {
        BlankedStep(old(a[i]), j);
        a[i] := a[i].(cats := a[i].cats[j := BlankCell(a[i].cats[j])]);
      }
    }
  }

  /**
    Blanking keeps the month and the sums, turns exactly the zero cells
    into missing ones, keeps every other cell, does not change what any
    column sums to, and is idempotent.
  */
  lemma BlankZerosFacts(r: MonthRow)
    ensures var b := BlankZeros(r);
      b.month == r.month && b.total == r.total && b.tps == r.tps && b.tvq == r.tvq
      && |b.cats| == |r.cats|
      && (forall k :: 0 <= k < |r.cats| ==> (b.cats[k] == None <==> r.cats[k] == None || r.cats[k] == Some(0)))
      && (forall k :: 0 <= k < |r.cats| && r.cats[k] != Some(0) ==> b.cats[k] == r.cats[k])
      && (forall k :: 0 <= k < |r.cats| ==> b.cats[k] != Some(0))
      && (forall j: nat :: CellCol(j)(b) == CellCol(j)(r))
      && BlankZeros(b) == b
  {
    var b := BlankZeros(r);
    assert BlankZeros(b).cats == b.cats;
  }

  lemma BlankZerosCell(r: MonthRow, k: nat)
    requires k < |r.cats|
    ensures BlankZeros(r).cats[k] == BlankCell(r.cats[k])
  {
  }

  lemma BlankZerosColumn(r: MonthRow, j: nat)
    ensures CellCol(j)(BlankZeros(r)) == CellCol(j)(r)
  {
    if j < |r.cats| {
      BlankZerosCell(r, j);
    }
  }

  /** A merged row's category cell counts as its month's net sum in that category. */
  lemma MonthRowCell(rows: seq<CashRow>, m: string, j: nat)
    requires j < |CategoryLabels|
    ensures MonthRowOf(rows, m).cats[j] == PivotCell(rows, CategoryName(j + 1), m)
    ensures CellCol(j)(MonthRowOf(rows, m)) == ColumnSum(CategoryMonth(rows, CategoryName(j + 1), m), NetCol)
  {
    var name := CategoryName(j + 1);
    var r := MonthRowOf(rows, m);
    assert r.cats[j] == PivotCell(rows, name, m);
    PivotCellSum(rows, name, m);
  }

  /** A missing pivot cell counts as the net sum 0 of its empty line set. */
  lemma PivotCellSum(rows: seq<CashRow>, name: string, m: string)
    ensures OrZero(PivotCell(rows, name, m)) == ColumnSum(CategoryMonth(rows, name, m), NetCol)
  {
    var g := CategoryMonth(rows, name, m);
    if |g| == 0 {
      assert g == [];
    }
  }

  /** The 总计 row: every numeric column's sum, with 年月 set to 总计. */
  function TotalRow(t: seq<MonthRow>): (r: MonthRow)
    ensures |r.cats| == |CategoryLabels|
  {
    MonthRow(TotalLabel, ColumnSum(t, MonthTotal), ColumnSum(t, MonthTps), ColumnSum(t, MonthTvq),
      seq(|CategoryLabels|, j requires 0 <= j < |CategoryLabels| => Some(ColumnSum(t, CellCol(j)))))
  }

  /** The month rows of the summary, their zero cells blanked. */
  function MonthRows(rows: seq<CashRow>): seq<MonthRow>
  {
    MapRows(Merged(rows), BlankZeros)
  }

  /** The summary table: the total row, the months, the total row again. */
  function SummaryTable(rows: seq<CashRow>): seq<MonthRow>
  {
    var t := MonthRows(rows);
    [TotalRow(t)] + t + [TotalRow(t)]
  }

  /** Steps 5 to 9 of the report, with the blanking done in place on the merged table. */
  method CashSummary(rows: seq<CashRow>) returns (table: seq<MonthRow>)
    ensures table == SummaryTable(rows)
  {
    var merged := Merged(rows);
    MergedWidths(rows);
    var a := new MonthRow[|merged|](i requires 0 <= i < |merged| => merged[i]);
    assert a[..] == merged;
    BlankZeroCategories(a);
    var t := a[..];
    assert t == MonthRows(rows);
    table := [TotalRow(t)] + t + [TotalRow(t)];
  }

  /** Every merged month row has one cell per category. */
  lemma MergedWidths(rows: seq<CashRow>)
    ensures forall i :: 0 <= i < |Merged(rows)| ==> |Merged(rows)[i].cats| == |CategoryLabels|
  {
    var ks := Keys(rows, MonthKey);
    forall i | 0 <= i < |Merged(rows)| ensures |Merged(rows)[i].cats| == |CategoryLabels| {
      assert Merged(rows)[i] == MonthRowOf(rows, ks[i]);
    }
  }

  /** The table is the total row, the month rows, and the same total row again. */
  lemma SummaryFrame(rows: seq<CashRow>)
    ensures var t := SummaryTable(rows); var m := MonthRows(rows);
      |t| == |m| + 2 && t[0] == t[|t| - 1] && t[0].month == TotalLabel
      && t[1..|t| - 1] == m
  {
    var t := SummaryTable(rows);
    var m := MonthRows(rows);
    assert t[1..|t| - 1] == m;
  }

  /** There is one month row per month that occurs, in 年月 order. */
  lemma MonthRowsInOrder(rows: seq<CashRow>)
    ensures var m := MonthRows(rows); var ks := Keys(rows, MonthKey);
      |m| == |ks| && forall i :: 0 <= i < |ks| ==> m[i] == BlankZeros(MonthRowOf(rows, ks[i])) && m[i].month == ks[i]
  {
    var ks := Keys(rows, MonthKey);
    assert forall i :: 0 <= i < |ks| ==> Merged(rows)[i] == MonthRowOf(rows, ks[i]);
  }

  /** The months of the month rows are strictly increasing. */
  lemma MonthRowsStrictlyIncreasing(rows: seq<CashRow>)
    ensures var m := MonthRows(rows);
      forall i, j :: 0 <= i < j < |m| ==> LexLe(m[i].month, m[j].month) && m[i].month != m[j].month
  {
    MonthRowsInOrder(rows);
  }

  /** A month row carries the sums of that month's lines. */
  lemma MonthRowTotals(rows: seq<CashRow>, i: nat)
    requires i < |Keys(rows, MonthKey)|
    ensures var m := MonthRows(rows); var g := Group(rows, MonthKey, Keys(rows, MonthKey)[i]);
      i < |m| && m[i].total == ColumnSum(g, TotalCol) && m[i].tps == ColumnSum(g, TpsCol) && m[i].tvq == ColumnSum(g, TvqCol)
  {
    MonthRowsInOrder(rows);
  }

  /** A month row's category cell is the month's net sum in that category, missing exactly when that sum is 0. */
  lemma SummaryCells(rows: seq<CashRow>, i: nat, j: nat)
    requires i < |Keys(rows, MonthKey)| && j < |CategoryLabels|
    ensures var m := MonthRows(rows); var ks := Keys(rows, MonthKey);
      var s := ColumnSum(CategoryMonth(rows, CategoryName(j + 1), ks[i]), NetCol);
      i < |m| && j < |m[i].cats| && m[i].cats[j] == if s == 0 then None else Some(s)
  {
    var k := Keys(rows, MonthKey)[i];
    assert MonthRows(rows)[i] == BlankZeros(MonthRowOf(rows, k)) by {
      assert Merged(rows)[i] == MonthRowOf(rows, k);
    }
    BlankZerosCell(MonthRowOf(rows, k), j);
    MonthRowCell(rows, k, j);
  }

  /** A month's blanked row adds to the totals what that month's lines add. */
  lemma MonthRowSums(rows: seq<CashRow>, m: string, j: nat)
    requires j < |CategoryLabels|
    ensures var b := BlankZeros(MonthRowOf(rows, m));
      MonthTotal(b) == ColumnSum(Group(rows, MonthKey, m), TotalCol)
      && MonthTps(b) == ColumnSum(Group(rows, MonthKey, m), TpsCol)
      && MonthTvq(b) == ColumnSum(Group(rows, MonthKey, m), TvqCol)
      && CellCol(j)(b) == ColumnSum(CategoryMonth(rows, CategoryName(j + 1), m), NetCol)
  {
    BlankZerosColumn(MonthRowOf(rows, m), j);
    MonthRowCell(rows, m, j);
  }

  /**
    The total row's sums are those of every line with a month, and its
    category cell is the net sum of every such line in that category.
  */
  lemma SummaryTotals(rows: seq<CashRow>)
    ensures var total := TotalRow(MonthRows(rows));
      total.total == ColumnSum(Keyed(rows, MonthKey), TotalCol)
      && total.tps == ColumnSum(Keyed(rows, MonthKey), TpsCol)
      && total.tvq == ColumnSum(Keyed(rows, MonthKey), TvqCol)
      && forall j :: 0 <= j < |CategoryLabels| ==>
           total.cats[j] == Some(ColumnSum(Keyed(Where(rows, InCategory(CategoryName(j + 1))), MonthKey), NetCol))
  {
    var blanked := (k: string) => BlankZeros(MonthRowOf(rows, k));
    assert MonthRows(rows) == MapRows(Keys(rows, MonthKey), blanked);
    forall k ensures MonthTotal(blanked(k)) == ColumnSum(Group(rows, MonthKey, k), TotalCol)
      && MonthTps(blanked(k)) == ColumnSum(Group(rows, MonthKey, k), TpsCol)
      && MonthTvq(blanked(k)) == ColumnSum(Group(rows, MonthKey, k), TvqCol)
    {
      MonthRowSums(rows, k, 0);
    }
    AmountTotal(rows, blanked, MonthTotal, TotalCol);
    AmountTotal(rows, blanked, MonthTps, TpsCol);
    AmountTotal(rows, blanked, MonthTvq, TvqCol);
    forall j | 0 <= j < |CategoryLabels|
      ensures ColumnSum(MonthRows(rows), CellCol(j)) == ColumnSum(Keyed(Where(rows, InCategory(CategoryName(j + 1))), MonthKey), NetCol)
    {
      CategoryTotal(rows, j, blanked);
    }
  }

  lemma AmountTotal(rows: seq<CashRow>, blanked: string -> MonthRow, lcol: MonthRow -> int, rcol: CashRow -> int)
    requires forall k :: lcol(blanked(k)) == ColumnSum(Group(rows, MonthKey, k), rcol)
    ensures ColumnSum(MapRows(Keys(rows, MonthKey), blanked), lcol) == ColumnSum(Keyed(rows, MonthKey), rcol)
  {
    var ks := Keys(rows, MonthKey);
    MapKeysSum(ks, blanked, lcol, rows, MonthKey, rcol);
    GroupSumsAddUp(rows, MonthKey, ks, rcol);
  }

  lemma CategoryTotal(rows: seq<CashRow>, j: nat, blanked: string -> MonthRow)
    requires j < |CategoryLabels|
    requires forall k :: blanked(k) == BlankZeros(MonthRowOf(rows, k))
    ensures ColumnSum(MapRows(Keys(rows, MonthKey), blanked), CellCol(j))
         == ColumnSum(Keyed(Where(rows, InCategory(CategoryName(j + 1))), MonthKey), NetCol)
  {
    var ks := Keys(rows, MonthKey);
    var w := Where(rows, InCategory(CategoryName(j + 1)));
    forall k | k in ks ensures CellCol(j)(blanked(k)) == ColumnSum(Group(w, MonthKey, k), NetCol) {
      MonthRowSums(rows, k, j);
    }
    MapKeysSum(ks, blanked, CellCol(j), w, MonthKey, NetCol);
    forall i | 0 <= i < |w| && MonthKey(w[i]).Some? ensures MonthKey(w[i]).value in ks {
      assert w[i] in rows by { WhereMember(rows, InCategory(CategoryName(j + 1)), w[i]); }
    }
    GroupSumsAddUp(w, MonthKey, ks, NetCol);
  }

  // ---------------------------------------------------------------------------
  // one month, cheque by cheque
  // ---------------------------------------------------------------------------

  /** `df['年月'] == selected_month`; with no month to choose, the selection is `None` and matches nothing. */
  function MonthIs(selected: Option<string>): CashRow -> bool
  {
    (r: CashRow) => selected.Some? && r.month == selected
  }

  function MonthLines(rows: seq<CashRow>, selected: Option<string>): seq<CashRow>
  {
    Where(rows, MonthIs(selected))
  }

  /**
    The lines the cheque tables list: the chosen month's lines of the frame
    whose 分类号码 column was overwritten with numbers before it was copied.
  */
  function MonthDetail(sheet: seq<CashRow>, selected: Option<string>): seq<CashRow>
  {
    MonthLines(CoerceCodes(sheet), selected)
  }

  /**
    The month's lines are the chosen month's sheet lines with their codes
    as numbers, so every cheque table shows 分类号码 as a number or NaN.
  */
  lemma MonthDetailLines(sheet: seq<CashRow>, selected: Option<string>, x: CashRow)
    ensures x in MonthDetail(sheet, selected) <==>
      selected.Some? && exists i :: 0 <= i < |sheet| && sheet[i].month == selected && x == CoerceCode(sheet[i])
    ensures x in MonthDetail(sheet, selected) ==> x.code.CodeNumber?
  {
    var c := CoerceCodes(sheet);
    MonthSelection(c, selected, x);
    if x in c {
      var i :| 0 <= i < |c| && c[i] == x;
      assert x == CoerceCode(sheet[i]);
    }
    if i :| 0 <= i < |sheet| && sheet[i].month == selected && x == CoerceCode(sheet[i]) {
      assert c[i] == x;
    }
  }

  /** The selection keeps exactly the lines of the chosen month. */
  lemma MonthSelection(rows: seq<CashRow>, selected: Option<string>, x: CashRow)
    ensures x in MonthLines(rows, selected) <==> x in rows && selected.Some? && x.month == selected
  {
    WhereMember(rows, MonthIs(selected), x);
  }

  function AmountCols(): seq<CashRow -> int> { [TotalCol, TpsCol, TvqCol] }

  predicate Dated(r: CashRow) { r.receiptDate.Some? }
  predicate Undated(r: CashRow) { r.receiptDate.None? }

  function ReceiptOrdinal(r: CashRow): int
  {
    if r.receiptDate.Some? then Ordinal(r.receiptDate.value) else 0
  }

  /**
    `sort_values(by='小票日期')`: the dated lines by date, then the undated
    ones. pandas' default sort does not promise an order for lines with the
    same receipt date; keeping them in table order is a choice of this model,
    and the lemmas below claim only the date order.
  */
  function ByReceiptDate(g: seq<CashRow>): seq<CashRow>
  {
    SortByKey(Where(g, Dated), ReceiptOrdinal) + Where(g, Undated)
  }

  /** Sorting by date keeps every line. */
  lemma ByReceiptDatePermutation(g: seq<CashRow>)
    ensures multiset(ByReceiptDate(g)) == multiset(g)
  {
    WhereCounts(g, Dated);
    WhereCounts(g, Undated);
    assert multiset(Where(g, Dated)) + multiset(Where(g, Undated)) == multiset(g);
  }

  /** The dated lines come first, the undated ones after them. */
  lemma ByReceiptDateDatedFirst(g: seq<CashRow>)
    ensures var s := ByReceiptDate(g); var n := |Where(g, Dated)|;
      n <= |s| && forall i :: 0 <= i < |s| ==> (Dated(s[i]) <==> i < n)
  {
    var dated := Where(g, Dated);
    var sorted := SortByKey(dated, ReceiptOrdinal);
    var undated := Where(g, Undated);
    var s := sorted + undated;
    assert |multiset(sorted)| == |multiset(dated)|;
    forall i | 0 <= i < |sorted| ensures Dated(s[i]) {
      assert s[i] == sorted[i];
      assert sorted[i] in multiset(dated);
    }
    forall i | |sorted| <= i < |s| ensures !Dated(s[i]) {
      assert s[i] == undated[i - |sorted|];
    }
  }

  /** The dated lines are in date order. */
  lemma ByReceiptDateOrdered(g: seq<CashRow>)
    ensures var s := ByReceiptDate(g); var n := |Where(g, Dated)|;
      n <= |s| && forall i, j :: 0 <= i < j < n ==> Dated(s[i]) && Dated(s[j]) && DateLe(s[i].receiptDate.value, s[j].receiptDate.value)
  {
    ByReceiptDateDatedFirst(g);
    var dated := Where(g, Dated);
    var sorted := SortByKey(dated, ReceiptOrdinal);
    var s := ByReceiptDate(g);
    assert |multiset(sorted)| == |multiset(dated)|;
    forall i, j | 0 <= i < j < |sorted| ensures DateLe(s[i].receiptDate.value, s[j].receiptDate.value) {
      assert s[i] == sorted[i] && s[j] == sorted[j];
      OrderMatchesOrdinal(s[i].receiptDate.value, s[j].receiptDate.value);
    }
  }

  /** One cheque's table: the 汇总 row with the group's sums, then its lines by date. */
  function ChequeTable(g: seq<CashRow>, k: string): seq<Line<CashRow>>
  {
    [Subtotal(k, Sums(g, AmountCols()))] + AsItems(ByReceiptDate(g))
  }

  function ChequePiece(f: seq<CashRow>): string -> seq<Line<CashRow>>
  {
    k => ChequeTable(Group(f, ChequeKey, k), k)
  }

  /** The export: every cheque's table, one after the other, in cheque order. */
  function Export(f: seq<CashRow>): seq<Line<CashRow>>
  {
    ConcatKeys(Keys(f, ChequeKey), ChequePiece(f))
  }

  /**
    The loop over `groupby('支票号')` of the month's lines (`MonthDetail`),
    collecting each cheque's table and the export.
  */
  method ChequeTables(f: seq<CashRow>) returns (tables: seq<seq<Line<CashRow>>>, exported: seq<Line<CashRow>>)
    ensures var ks := Keys(f, ChequeKey);
      |tables| == |ks| && forall i :: 0 <= i < |ks| ==> tables[i] == ChequeTable(Group(f, ChequeKey, ks[i]), ks[i])
    ensures exported == Export(f)
  {
    var ks := Keys(f, ChequeKey);
    tables := [];
    exported := [];
    for i := 0 to |ks|
      invariant tables == MapRows(ks[..i], ChequePiece(f))
      invariant exported == ConcatKeys(ks[..i], ChequePiece(f))
    {
      var group := Group(f, ChequeKey, ks[i]);
      var table := ChequeTable(group, ks[i]);
      assert table == ChequePiece(f)(ks[i]);
      TablesSnoc(ks, ChequePiece(f), i);
      tables := tables + [table];
      exported := exported + table;
    }
    TablesDone(f, ks, tables, exported);
  }

  lemma TablesSnoc(ks: seq<string>, piece: string -> seq<Line<CashRow>>, i: nat)
    requires i < |ks|
    ensures MapRows(ks[..i + 1], piece) == MapRows(ks[..i], piece) + [piece(ks[i])]
    ensures ConcatKeys(ks[..i + 1], piece) == ConcatKeys(ks[..i], piece) + piece(ks[i])
  {
    MapRowsSnoc(ks, piece, i);
    ConcatKeysSnoc(ks, piece, i);
  }

  lemma TablesDone(f: seq<CashRow>, ks: seq<string>, tables: seq<seq<Line<CashRow>>>, exported: seq<Line<CashRow>>)
    requires ks == Keys(f, ChequeKey)
    requires tables == MapRows(ks[..|ks|], ChequePiece(f))
    requires exported == ConcatKeys(ks[..|ks|], ChequePiece(f))
    ensures |tables| == |ks| && forall i :: 0 <= i < |ks| ==> tables[i] == ChequeTable(Group(f, ChequeKey, ks[i]), ks[i])
    ensures exported == Export(f)
  {
    assert ks[..|ks|] == ks;
  }

  /** The lines listed under a cheque's 汇总 row are its lines by date. */
  lemma ChequeTableItems(g: seq<CashRow>, k: string)
    ensures ItemRows(ChequeTable(g, k)) == ByReceiptDate(g)
  {
    var s := ByReceiptDate(g);
    var head: seq<Line<CashRow>> := [Subtotal(k, Sums(g, AmountCols()))];
    assert ChequeTable(g, k) == head + AsItems(s);
    ItemRowsAppend(head, AsItems(s));
    ItemRowsOfItems(s);
    assert ItemRows(head) == [];
  }

  /**
    A cheque's table opens with a 汇总 row whose sums are those of the
    lines listed under it, and those lines are the cheque's lines, each once.
  */
  lemma ChequeTableFacts(g: seq<CashRow>, k: string)
    ensures var t := ChequeTable(g, k);
      t[0].Subtotal? && t[0].group == k
      && multiset(ItemRows(t)) == multiset(g)
      && (forall i :: 1 <= i < |t| ==> t[i].Item?)
      && (forall j :: 0 <= j < |AmountCols()| ==> t[0].sums[j] == ColumnSum(ItemRows(t), AmountCols()[j]))
  {
    ChequeTableItems(g, k);
    ByReceiptDatePermutation(g);
    forall j | 0 <= j < |AmountCols()| ensures ColumnSum(g, AmountCols()[j]) == ColumnSum(ByReceiptDate(g), AmountCols()[j]) {
      ColumnSumPermutation(g, ByReceiptDate(g), AmountCols()[j]);
    }
  }

  /** Every line a cheque table lists has its 分类号码 as the number it was rewritten to. */
  lemma ExportCodes(sheet: seq<CashRow>, selected: Option<string>, x: CashRow)
    requires x in ItemRows(Export(MonthDetail(sheet, selected)))
    ensures x.code.CodeNumber?
    ensures x in MonthDetail(sheet, selected)
  {
    var f := MonthDetail(sheet, selected);
    ExportFacts(f);
    assert x in multiset(Keyed(f, ChequeKey));
    KeyedWithin(f, ChequeKey, x);
    MonthDetailLines(sheet, selected, x);
  }

  /** The export lists every line that has a cheque number once, and no other line. */
  lemma ExportFacts(f: seq<CashRow>)
    ensures multiset(ItemRows(Export(f))) == multiset(Keyed(f, ChequeKey))
  {
    var ks := Keys(f, ChequeKey);
    forall k | k in ks ensures multiset(ItemRows(ChequePiece(f)(k))) == multiset(Group(f, ChequeKey, k)) {
      ChequeTableFacts(Group(f, ChequeKey, k), k);
    }
    ConcatKeysItems(ks, ChequePiece(f), f, ChequeKey);
    GroupsConcatPermutation(f, ChequeKey, ks);
  }

  // ---------------------------------------------------------------------------
  // highlighting
  // ---------------------------------------------------------------------------

  /** The summary table has a 年月 column, so its rows are highlighted on the month. */
  function MonthRowMark(r: MonthRow): Mark { MarkOf(Some(r.month)) }

  /** A cheque table has no 年月 column, so its rows are highlighted on 供应商. */
  function ChequeLineLabel(l: Line<CashRow>): Option<string>
  {
    match l
    case Item(r) => r.supplier
    case Subtotal(_, _) => Some(SubtotalSuffix)
    case GrandTotal(_) => Some(TotalLabel)
  }

  /** The total rows of the summary are highlighted as totals. */
  lemma MonthRowMarks(rows: seq<CashRow>)
    ensures var t := SummaryTable(rows);
      MonthRowMark(t[0]) == TotalMark && MonthRowMark(t[|t| - 1]) == TotalMark
  {
    SummaryFrame(rows);
  }

  /** A cheque table's 汇总 row is highlighted as a subtotal, its lines by their supplier. */
  lemma ChequeTableMarks(g: seq<CashRow>, k: string)
    ensures var t := ChequeTable(g, k);
      MarkOf(ChequeLineLabel(t[0])) == SubtotalMark
      && forall i :: 1 <= i < |t| ==> MarkOf(ChequeLineLabel(t[i])) == MarkOf(t[i].row.supplier)
  {
    var t := ChequeTable(g, k);
    assert SubtotalSuffix[|SubtotalSuffix| - |SubtotalSuffix|..] == SubtotalSuffix;
    forall i | 1 <= i < |t| ensures t[i].Item? {
      ChequeTableFacts(g, k);
    }
  }
}
