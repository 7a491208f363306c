/**
  The department picker of the sidebar: the distinct departments of the
  ledger in text order, offered after a `全部` ("all") choice; choosing
  `全部`, or nothing, means every department.
*/
module Sidebar {

  import opened Common
  import opened Text
  import opened Sorting
  import opened Ledger

  const AllChoice: string := "全部"

  /** The present values of a column that may hold missing values (`dropna()`). */
  function Present(col: seq<Option<string>>): (r: seq<string>)
    ensures forall x :: x in r <==> Some(x) in col
  {
    if col == [] then []
    else (if col[0].Some? then [col[0].value] else []) + Present(col[1..])
  }

  /** `sorted(df['部门'].dropna().unique())`. */
  function AllDepartments(rows: seq<Row>): (r: seq<string>)
    ensures SortedText(r) && NoDuplicates(r)
    ensures forall i, j :: 0 <= i < j < |r| ==> r[i] != r[j]
    ensures forall d :: d in r <==> exists i :: 0 <= i < |rows| && rows[i].dept == Some(d)
  {
    var col := DeptColumn(rows);
    var r := SortedDistinct(Present(col));
    assert forall d :: Some(d) in col ==> exists i :: 0 <= i < |rows| && rows[i].dept == Some(d) by {
      forall d | Some(d) in col ensures exists i :: 0 <= i < |rows| && rows[i].dept == Some(d) {
        var i :| 0 <= i < |col| && col[i] == Some(d);
        assert rows[i].dept == Some(d);
      }
    }
    r
  }

  /** The choices offered: `全部`, then every department. */
  function DepartmentOptions(rows: seq<Row>): (r: seq<string>)
    ensures |r| == |AllDepartments(rows)| + 1 && r[0] == AllChoice
    ensures forall d :: d in AllDepartments(rows) ==> d in r
  {
    [AllChoice] + AllDepartments(rows)
  }

  /** `get_selected_departments`: all of them when `全部` or nothing is chosen, else the choice as made. */
  function SelectedDepartments(rows: seq<Row>, chosen: seq<string>): (r: seq<string>)
    ensures AllChoice in chosen ==> r == AllDepartments(rows)
    ensures chosen == [] ==> r == AllDepartments(rows)
    ensures AllChoice !in chosen && chosen != [] ==> r == chosen
  {
    if AllChoice in chosen || chosen == [] then AllDepartments(rows) else chosen
  }

  /**
    Whatever is chosen among the offered options, the selection names only
    ledger departments, unless a department is itself called `全部`.
  */
  lemma SelectionNamesDepartments(rows: seq<Row>, chosen: seq<string>)
    requires forall c :: c in chosen ==> c in DepartmentOptions(rows)
    ensures forall d :: d in SelectedDepartments(rows, chosen) ==> d in AllDepartments(rows)
  {
  }

  /**
    Choosing `全部` (or nothing) keeps exactly the rows that have a department:
    every such row passes the `isin` filter and no row without one does.
  */
  lemma ChoosingAllKeepsEveryDepartment(rows: seq<Row>, chosen: seq<string>)
    requires AllChoice in chosen || chosen == []
    ensures forall i :: 0 <= i < |rows| ==>
      (InDepartments(rows[i], SelectedDepartments(rows, chosen)) <==> rows[i].dept.Some?)
  {
    forall i | 0 <= i < |rows| && rows[i].dept.Some?
      ensures rows[i].dept.value in AllDepartments(rows)
    {
      assert rows[i].dept == Some(rows[i].dept.value);
    }
  }
}
