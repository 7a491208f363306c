/**
  The table shapes the reports share, independent of which ledger columns
  they carry:

  - `groupby(key).sum()`: one line per distinct present key, in key order,
    holding the column sums of that key's rows (rows whose key is missing
    are dropped, as pandas does);
  - a summary table: those lines followed by a `总计` line holding the sums
    of the group lines;
  - a detail table: for each key in order, the key's rows (as listed, or
    regrouped by a second key) followed by a `<key> 汇总` subtotal line, and
    a final `总计` line;
  - the highlighting of subtotal and total lines by their label.

  A row's amount columns are given as a sequence of functions `cols`; a
  missing amount is the caller's business (`sum()` skips NaN, which the
  column functions express with `OrZero`).
*/
module Tables {

  import opened Common
  import opened Text
  import opened Sorting

  // ---------------------------------------------------------------------------
  // row selection and column assignment
  // ---------------------------------------------------------------------------

  /** `df[mask]`: the rows that satisfy `keep`, in their order, each as often as in `rows`. */
  function Where<T(==,!new)>(rows: seq<T>, keep: T -> bool): (r: seq<T>)
    ensures |r| <= |rows|
    ensures forall i :: 0 <= i < |r| ==> keep(r[i])
  {
    if rows == [] then []
    else
      var front := rows[..|rows| - 1];
      var x := rows[|rows| - 1];
      assert rows == front + [x];
      Where(front, keep) + (if keep(x) then [x] else [])
  }

  lemma WhereSnoc<T(!new)>(rows: seq<T>, x: T, keep: T -> bool)
    ensures Where(rows + [x], keep) == Where(rows, keep) + (if keep(x) then [x] else [])
  {
    assert (rows + [x])[..|rows|] == rows;
  }

  /** The mask keeps each row it accepts as often as it occurs, and no other row. */
  lemma {:induction false} WhereCounts<T(!new)>(rows: seq<T>, keep: T -> bool)
    ensures forall x :: multiset(Where(rows, keep))[x] == if keep(x) then multiset(rows)[x] else 0
    decreases |rows|
  {
    if rows != [] {
      var front := rows[..|rows| - 1];
      var x := rows[|rows| - 1];
      WhereCounts(front, keep);
      assert rows == front + [x];
    }
  }

  /** A row is among the kept ones exactly when it is among the rows and satisfies the mask. */
  lemma WhereMember<T(!new)>(rows: seq<T>, keep: T -> bool, x: T)
    ensures x in Where(rows, keep) <==> x in rows && keep(x)
  {
    WhereCounts(rows, keep);
    assert x in Where(rows, keep) <==> x in multiset(Where(rows, keep));
    assert x in rows <==> x in multiset(rows);
  }

  /** A column of the kept rows holds the value of every kept row. */
  lemma WhereColumnHas<T(!new), U>(rows: seq<T>, keep: T -> bool, f: T -> U, i: nat)
    requires i < |rows| && keep(rows[i])
    ensures f(rows[i]) in MapRows(Where(rows, keep), f)
  {
    var w := Where(rows, keep);
    WhereMember(rows, keep, rows[i]);
    var m :| 0 <= m < |w| && w[m] == rows[i];
    assert MapRows(w, f)[m] == f(rows[i]);
  }

  /** Every value in a column of the kept rows is the value of some kept row. */
  lemma WhereColumnFrom<T(!new), U>(rows: seq<T>, keep: T -> bool, f: T -> U, v: U) returns (i: nat)
    requires v in MapRows(Where(rows, keep), f)
    ensures i < |rows| && keep(rows[i]) && f(rows[i]) == v
  {
    var w := Where(rows, keep);
    var m :| 0 <= m < |w| && MapRows(w, f)[m] == v;
    WhereMember(rows, keep, w[m]);
    i :| 0 <= i < |rows| && rows[i] == w[m];
  }

  /** Filtering rows that all satisfy the mask keeps them all. */
  lemma {:induction false} WhereAll<T(!new)>(rows: seq<T>, keep: T -> bool)
    requires forall i :: 0 <= i < |rows| ==> keep(rows[i])
    ensures Where(rows, keep) == rows
    decreases |rows|
  {
    if rows != [] {
      var front := rows[..|rows| - 1];
      var x := rows[|rows| - 1];
      assert forall i :: 0 <= i < |front| ==> keep(front[i]) by {
        forall i | 0 <= i < |front| ensures keep(front[i]) {
          assert front[i] == rows[i];
        }
      }
      WhereAll(front, keep);
      assert keep(x);
      assert Where(rows, keep) == Where(front, keep) + [x];
      assert rows == front + [x];
    }
  }

  /** A mask applied to two pieces, one after the other. */
  lemma {:induction false} WhereAppend<T(!new)>(a: seq<T>, b: seq<T>, keep: T -> bool)
    ensures Where(a + b, keep) == Where(a, keep) + Where(b, keep)
    decreases |b|
  {
    if b == [] {
      assert a + b == a;
    } else {
      var front := b[..|b| - 1];
      var x := b[|b| - 1];
      assert a + b == (a + front) + [x];
      WhereSnoc(a + front, x, keep);
      WhereSnoc(front, x, keep);
      assert b == front + [x];
      WhereAppend(a, front, keep);
    }
  }

  /** A mask that rejects every row leaves nothing. */
  lemma {:induction false} WhereNone<T(!new)>(rows: seq<T>, keep: T -> bool)
    requires forall i :: 0 <= i < |rows| ==> !keep(rows[i])
    ensures Where(rows, keep) == []
    decreases |rows|
  {
    if rows != [] {
      var front := rows[..|rows| - 1];
      assert forall i :: 0 <= i < |front| ==> !keep(front[i]) by {
        forall i | 0 <= i < |front| ensures !keep(front[i]) {
          assert front[i] == rows[i];
        }
      }
      WhereNone(front, keep);
    }
  }

  /** A column assignment applied to every row (`df[col] = f(df)`). */
  function MapRows<T, U>(rows: seq<T>, f: T -> U): (r: seq<U>)
    ensures |r| == |rows|
    ensures forall i :: 0 <= i < |rows| ==> r[i] == f(rows[i])
  {
    seq(|rows|, i requires 0 <= i < |rows| => f(rows[i]))
  }

  /** Mapping one more row appends its image. */
  lemma MapRowsSnoc<T, U>(rows: seq<T>, f: T -> U, i: nat)
    requires i < |rows|
    ensures MapRows(rows[..i + 1], f) == MapRows(rows[..i], f) + [f(rows[i])]
  {
  }

  /** A masked update `df.loc[mask, cols] = f(row)`: the rows outside the mask stay as they are. */
  function Masked<T>(mask: T -> bool, f: T -> T): T -> T
  {
    r => if mask(r) then f(r) else r
  }

  lemma MaskedApply<T>(mask: T -> bool, f: T -> T, r: T)
    ensures Masked(mask, f)(r) == if mask(r) then f(r) else r
  {
  }

  /** `df[col] = f(df)` on every row: the frame `a` rewritten in place, row by row. */
  method AssignAll<T>(a: array<T>, f: T -> T)
    modifies a
    ensures a[..] == MapRows(old(a[..]), f)
  {
    for i := 0 to a.Length
      invariant forall j :: 0 <= j < i ==> a[j] == f(old(a[j]))
      invariant forall j :: i <= j < a.Length ==> a[j] == old(a[j])
    {
      a[i] := f(a[i]);
    }
  }

  /** `df.loc[mask, cols] = ...` applied in place to the frame `a`, row by row. */
  method AssignWhere<T>(a: array<T>, mask: T -> bool, f: T -> T)
    modifies a
    ensures a[..] == MapRows(old(a[..]), Masked(mask, f))
    ensures forall i :: 0 <= i < a.Length && !mask(old(a[i])) ==> a[i] == old(a[i])
  {
    for i := 0 to a.Length
      invariant forall j :: 0 <= j < i ==> a[j] == Masked(mask, f)(old(a[j]))
      invariant forall j :: i <= j < a.Length ==> a[j] == old(a[j])
    {
      if mask(a[i]) {
        a[i] := f(a[i]);
      }
    }
  }

  /** A property of every row survives a filter. */
  lemma WherePreserves<T(!new)>(rows: seq<T>, keep: T -> bool, p: T -> bool)
    requires forall i :: 0 <= i < |rows| ==> p(rows[i])
    ensures forall i :: 0 <= i < |Where(rows, keep)| ==> p(Where(rows, keep)[i])
  {
    var w := Where(rows, keep);
    WhereCounts(rows, keep);
    forall i | 0 <= i < |w| ensures p(w[i]) {
      assert w[i] in multiset(rows);
    }
  }

  // ---------------------------------------------------------------------------
  // column sums
  // ---------------------------------------------------------------------------

  /** `rows[col].sum()`. */
  function ColumnSum<T>(rows: seq<T>, col: T -> int): int
  {
    if rows == [] then 0 else ColumnSum(rows[..|rows| - 1], col) + col(rows[|rows| - 1])
  }

  lemma ColumnSumSingle<T>(x: T, col: T -> int)
    ensures ColumnSum([x], col) == col(x)
  {
    assert [x][..0] == [];
  }

  /** A map that leaves a column's values alone leaves its sum alone. */
  lemma {:induction false} ColumnSumMapped<T>(rows: seq<T>, f: T -> T, col: T -> int)
    requires forall i :: 0 <= i < |rows| ==> col(f(rows[i])) == col(rows[i])
    ensures ColumnSum(MapRows(rows, f), col) == ColumnSum(rows, col)
    decreases |rows|
  {
    if rows != [] {
      var front := rows[..|rows| - 1];
      assert MapRows(rows, f)[..|rows| - 1] == MapRows(front, f);
      ColumnSumMapped(front, f, col);
    }
  }

  /** The sums of every amount column, in column order. */
  function Sums<T>(rows: seq<T>, cols: seq<T -> int>): (r: seq<int>)
    ensures |r| == |cols|
    ensures forall j :: 0 <= j < |cols| ==> r[j] == ColumnSum(rows, cols[j])
  {
    seq(|cols|, j requires 0 <= j < |cols| => ColumnSum(rows, cols[j]))
  }

  lemma {:induction false} ColumnSumAppend<T>(a: seq<T>, b: seq<T>, col: T -> int)
    ensures ColumnSum(a + b, col) == ColumnSum(a, col) + ColumnSum(b, col)
    decreases |b|
  {
    if b != [] {
      var b' := b[..|b| - 1];
      assert (a + b)[..|a + b| - 1] == a + b';
      ColumnSumAppend(a, b', col);
    } else {
      assert a + b == a;
    }
  }

  /** A sum does not depend on the order of the rows. */
  lemma {:induction false} ColumnSumPermutation<T>(a: seq<T>, b: seq<T>, col: T -> int)
    requires multiset(a) == multiset(b)
    ensures ColumnSum(a, col) == ColumnSum(b, col)
    decreases |a|
  {
    if a == [] {
      assert |b| == |multiset(b)| == 0;
    } else {
      var x := a[|a| - 1];
      var a' := a[..|a| - 1];
      assert a == a' + [x];
      assert x in multiset(b);
      var m :| 0 <= m < |b| && b[m] == x;
      var rest := b[..m] + b[m + 1..];
      ColumnSumRemove(b, m, col);
      MultisetRemove(b, m);
      assert multiset(a) == multiset(a') + multiset{x};
      assert multiset(a') == multiset(rest) by {
        forall y ensures multiset(a')[y] == multiset(rest)[y] {
          assert multiset(a)[y] == multiset(b)[y];
        }
      }
      ColumnSumPermutation(a', rest, col);
    }
  }

  /** Taking one row out of a sequence takes its value out of the sum. */
  lemma ColumnSumRemove<T>(b: seq<T>, m: nat, col: T -> int)
    requires m < |b|
    ensures ColumnSum(b, col) == ColumnSum(b[..m] + b[m + 1..], col) + col(b[m])
  {
    SplitAround(b, m);
    ColumnSumMiddle(b[..m], b[m], b[m + 1..], col);
  }

  lemma SplitAround<T>(b: seq<T>, m: nat)
    requires m < |b|
    ensures b == b[..m] + [b[m]] + b[m + 1..]
  {
  }

  /** Taking one row out of a sequence takes it out of the multiset. */
  lemma MultisetRemove<T>(b: seq<T>, m: nat)
    requires m < |b|
    ensures multiset(b) == multiset(b[..m] + b[m + 1..]) + multiset{b[m]}
  {
    SplitAround(b, m);
  }

  lemma ColumnSumMiddle<T>(l: seq<T>, x: T, r: seq<T>, col: T -> int)
    ensures ColumnSum(l + [x] + r, col) == ColumnSum(l + r, col) + col(x)
  {
    ColumnSumAppend(l + [x], r, col);
    ColumnSumAppend(l, [x], col);
    ColumnSumSingle(x, col);
    ColumnSumAppend(l, r, col);
  }

  /** A column defined as the difference of two columns sums to the difference of their sums. */
  lemma {:induction false} ColumnSumDifference<T>(rows: seq<T>, a: T -> int, b: T -> int, c: T -> int)
    requires forall i :: 0 <= i < |rows| ==> c(rows[i]) == a(rows[i]) - b(rows[i])
    ensures ColumnSum(rows, c) == ColumnSum(rows, a) - ColumnSum(rows, b)
    decreases |rows|
  {
    if rows != [] {
      ColumnSumDifference(rows[..|rows| - 1], a, b, c);
    }
  }

  lemma SumsPermutation<T>(a: seq<T>, b: seq<T>, cols: seq<T -> int>)
    requires multiset(a) == multiset(b)
    ensures Sums(a, cols) == Sums(b, cols)
  {
    forall j | 0 <= j < |cols| ensures ColumnSum(a, cols[j]) == ColumnSum(b, cols[j]) {
      ColumnSumPermutation(a, b, cols[j]);
    }
  }

  // ---------------------------------------------------------------------------
  // grouping on an optional string key
  // ---------------------------------------------------------------------------

  /** The rows whose key is present (the rows `groupby` keeps). */
  function Keyed<T>(rows: seq<T>, key: T -> Option<string>): (r: seq<T>)
    ensures forall i :: 0 <= i < |r| ==> key(r[i]).Some?
  {
    if rows == [] then []
    else Keyed(rows[..|rows| - 1], key) + (if key(rows[|rows| - 1]).Some? then [rows[|rows| - 1]] else [])
  }

  /** Mapping rows without touching their key commutes with keeping the keyed rows. */
  /** The keyed rows are rows of the table. */
  lemma {:induction false} KeyedWithin<T>(rows: seq<T>, key: T -> Option<string>, x: T)
    requires x in Keyed(rows, key)
    ensures x in rows
    decreases |rows|
  {
    var init := rows[..|rows| - 1];
    var last := rows[|rows| - 1];
    assert Keyed(rows, key) == Keyed(init, key) + (if key(last).Some? then [last] else []);
    if x in Keyed(init, key) {
      KeyedWithin(init, key, x);
      assert x in rows by { var i :| 0 <= i < |init| && init[i] == x; assert rows[i] == x; }
    }
  }

  lemma {:induction false} KeyedMapped<T>(rows: seq<T>, f: T -> T, key: T -> Option<string>)
    requires forall i :: 0 <= i < |rows| ==> key(f(rows[i])) == key(rows[i])
    ensures Keyed(MapRows(rows, f), key) == MapRows(Keyed(rows, key), f)
    decreases |rows|
  {
    if rows != [] {
      var front := rows[..|rows| - 1];
      assert MapRows(rows, f)[..|rows| - 1] == MapRows(front, f);
      KeyedMapped(front, f, key);
      var x := rows[|rows| - 1];
      var k := Keyed(front, key);
      if key(x).Some? {
        assert MapRows(k + [x], f) == MapRows(k, f) + [f(x)];
      } else {
        assert k + [] == k;
      }
    }
  }

  /** The rows of one group, in their order in `rows`. */
  function Group<T>(rows: seq<T>, key: T -> Option<string>, k: string): (r: seq<T>)
    ensures forall i :: 0 <= i < |r| ==> key(r[i]) == Some(k)
  {
    if rows == [] then []
    else Group(rows[..|rows| - 1], key, k) + (if key(rows[|rows| - 1]) == Some(k) then [rows[|rows| - 1]] else [])
  }

  /** Every present key value, one per keyed row. */
  function PresentKeys<T>(rows: seq<T>, key: T -> Option<string>): (r: seq<string>)
    ensures forall i :: 0 <= i < |rows| && key(rows[i]).Some? ==> key(rows[i]).value in r
    ensures forall k :: k in r ==> exists i :: 0 <= i < |rows| && key(rows[i]) == Some(k)
  {
    if rows == [] then []
    else
      var front := PresentKeys(rows[..|rows| - 1], key);
      var x := rows[|rows| - 1];
      front + (if key(x).Some? then [key(x).value] else [])
  }

  /** The group keys `groupby` visits: every present key once, in text order. */
  function Keys<T>(rows: seq<T>, key: T -> Option<string>): (r: seq<string>)
    ensures SortedText(r)
    ensures forall i, j :: 0 <= i < j < |r| ==> r[i] != r[j]
    ensures forall i :: 0 <= i < |rows| && key(rows[i]).Some? ==> key(rows[i]).value in r
    ensures forall k :: k in r ==> exists i :: 0 <= i < |rows| && key(rows[i]) == Some(k)
  {
    SortedDistinct(PresentKeys(rows, key))
  }

  predicate Distinct(keys: seq<string>)
  {
    forall i, j :: 0 <= i < j < |keys| ==> keys[i] != keys[j]
  }

  /** Every present key of `rows` is listed in `keys`. */
  predicate Covers<T>(keys: seq<string>, rows: seq<T>, key: T -> Option<string>)
  {
    forall i :: 0 <= i < |rows| && key(rows[i]).Some? ==> key(rows[i]).value in keys
  }

  /** The groups of `keys`, one after the other. */
  function GroupsConcat<T>(rows: seq<T>, key: T -> Option<string>, keys: seq<string>): seq<T>
  {
    if keys == [] then []
    else GroupsConcat(rows, key, keys[..|keys| - 1]) + Group(rows, key, keys[|keys| - 1])
  }

  lemma {:induction false} GroupsConcatEmpty<T>(key: T -> Option<string>, keys: seq<string>)
    ensures GroupsConcat([], key, keys) == []
    decreases |keys|
  {
    if keys != [] {
      GroupsConcatEmpty(key, keys[..|keys| - 1]);
    }
  }

  lemma {:induction false} GroupsConcatSnocRow<T>(rows: seq<T>, x: T, key: T -> Option<string>, keys: seq<string>)
    requires Distinct(keys)
    ensures multiset(GroupsConcat(rows + [x], key, keys))
         == multiset(GroupsConcat(rows, key, keys))
            + (if key(x).Some? && key(x).value in keys then multiset{x} else multiset{})
    decreases |keys|
  {
    if keys != [] {
      var ks := keys[..|keys| - 1];
      var k := keys[|keys| - 1];
      var inKs := key(x).Some? && key(x).value in ks;
      var isK := key(x) == Some(k);
      assert keys == ks + [k];
      assert Distinct(ks);
      GroupsConcatSnocRow(rows, x, key, ks);
      GroupSnocRow(rows, x, key, k);
      assert !(inKs && isK) && ((key(x).Some? && key(x).value in keys) <==> inKs || isK);
      OneMoreRow(multiset(GroupsConcat(rows, key, ks)), multiset(GroupsConcat(rows + [x], key, ks)),
                 Group(rows, key, k), Group(rows + [x], key, k), x, inKs, isK);
    }
  }

  /** Adding `x` to at most one of two parts adds it to their union at most once. */
  lemma OneMoreRow<T>(a: multiset<T>, a1: multiset<T>, b: seq<T>, b1: seq<T>, x: T, inA: bool, inB: bool)
    requires a1 == a + (if inA then multiset{x} else multiset{})
    requires b1 == b + (if inB then [x] else [])
    requires !(inA && inB)
    ensures a1 + multiset(b1) == a + multiset(b) + (if inA || inB then multiset{x} else multiset{})
  {
  }

  /** One more row joins its own group and no other. */
  lemma GroupSnocRow<T>(rows: seq<T>, x: T, key: T -> Option<string>, k: string)
    ensures Group(rows + [x], key, k) == Group(rows, key, k) + (if key(x) == Some(k) then [x] else [])
  {
    assert (rows + [x])[..|rows + [x]| - 1] == rows;
  }

  /** Listing the groups one after the other loses and adds no keyed row. */
  lemma {:induction false} GroupsConcatPermutation<T>(rows: seq<T>, key: T -> Option<string>, keys: seq<string>)
    requires Distinct(keys) && Covers(keys, rows, key)
    ensures multiset(GroupsConcat(rows, key, keys)) == multiset(Keyed(rows, key))
    decreases |rows|
  {
    if rows == [] {
      GroupsConcatEmpty(key, keys);
    } else {
      var front := rows[..|rows| - 1];
      var x := rows[|rows| - 1];
      assert rows == front + [x];
      assert Covers(keys, front, key) by {
        forall i | 0 <= i < |front| && key(front[i]).Some? ensures key(front[i]).value in keys {
          assert front[i] == rows[i];
        }
      }
      GroupsConcatPermutation(front, key, keys);
      GroupsConcatSnocRow(front, x, key, keys);
    }
  }

  /** With every row keyed, the keyed rows are all the rows. */
  lemma {:induction false} KeyedAll<T>(rows: seq<T>, key: T -> Option<string>)
    requires forall i :: 0 <= i < |rows| ==> key(rows[i]).Some?
    ensures Keyed(rows, key) == rows
    decreases |rows|
  {
    if rows != [] {
      KeyedAll(rows[..|rows| - 1], key);
    }
  }

  /** The sums over the groups of `keys`, column by column. */
  function GroupsColumnSum<T>(rows: seq<T>, key: T -> Option<string>, keys: seq<string>, col: T -> int): int
  {
    if keys == [] then 0
    else GroupsColumnSum(rows, key, keys[..|keys| - 1], col) + ColumnSum(Group(rows, key, keys[|keys| - 1]), col)
  }

  lemma {:induction false} GroupsColumnSumIsConcatSum<T>(rows: seq<T>, key: T -> Option<string>, keys: seq<string>, col: T -> int)
    ensures GroupsColumnSum(rows, key, keys, col) == ColumnSum(GroupsConcat(rows, key, keys), col)
    decreases |keys|
  {
    if keys != [] {
      var ks := keys[..|keys| - 1];
      GroupsColumnSumIsConcatSum(rows, key, ks, col);
      ColumnSumAppend(GroupsConcat(rows, key, ks), Group(rows, key, keys[|keys| - 1]), col);
    }
  }

  /** Summing a filtered column one more row at a time. */
  lemma WhereSumSnoc<T(!new)>(rows: seq<T>, x: T, keep: T -> bool, col: T -> int)
    ensures ColumnSum(Where(rows + [x], keep), col) == ColumnSum(Where(rows, keep), col) + (if keep(x) then col(x) else 0)
  {
    WhereSnoc(rows, x, keep);
    var w := Where(rows, keep);
    if keep(x) {
      assert (w + [x])[..|w|] == w;
    } else {
      assert w + [] == w;
    }
  }

  /** Summing the groups of a filtered key list one more key at a time. */
  lemma GroupsSumWhereSnoc<T>(rows: seq<T>, key: T -> Option<string>, keys: seq<string>, k: string, p: string -> bool, col: T -> int)
    ensures GroupsColumnSum(rows, key, Where(keys + [k], p), col)
         == GroupsColumnSum(rows, key, Where(keys, p), col) + (if p(k) then ColumnSum(Group(rows, key, k), col) else 0)
  {
    WhereSnoc(keys, k, p);
    var w := Where(keys, p);
    if p(k) {
      assert (w + [k])[..|w|] == w;
    } else {
      assert w + [] == w;
    }
  }

  /** The group sums add up to the sum over every keyed row. */
  lemma GroupSumsAddUp<T>(rows: seq<T>, key: T -> Option<string>, keys: seq<string>, col: T -> int)
    requires Distinct(keys) && Covers(keys, rows, key)
    ensures GroupsColumnSum(rows, key, keys, col) == ColumnSum(Keyed(rows, key), col)
  {
    GroupsColumnSumIsConcatSum(rows, key, keys, col);
    GroupsConcatPermutation(rows, key, keys);
    ColumnSumPermutation(GroupsConcat(rows, key, keys), Keyed(rows, key), col);
  }

  /** A present key has a non-empty group. */
  lemma {:induction false} GroupNonEmpty<T>(rows: seq<T>, key: T -> Option<string>, i: nat)
    requires i < |rows| && key(rows[i]).Some?
    ensures |Group(rows, key, key(rows[i]).value)| > 0
    decreases |rows|
  {
    if i < |rows| - 1 {
      var front := rows[..|rows| - 1];
      assert front[i] == rows[i];
      GroupNonEmpty(front, key, i);
    }
  }

  /** A listed key has a non-empty group. */
  lemma KeyGroupNonEmpty<T>(rows: seq<T>, key: T -> Option<string>, k: string)
    requires k in Keys(rows, key)
    ensures |Group(rows, key, k)| > 0
  {
    var i :| 0 <= i < |rows| && key(rows[i]) == Some(k);
    GroupNonEmpty(rows, key, i);
  }

  /** A property of every row holds for every row of a group. */
  lemma {:induction false} GroupPreserves<T>(rows: seq<T>, key: T -> Option<string>, k: string, p: T -> bool)
    requires forall i :: 0 <= i < |rows| ==> p(rows[i])
    ensures forall j :: 0 <= j < |Group(rows, key, k)| ==> p(Group(rows, key, k)[j])
    decreases |rows|
  {
    if rows != [] {
      var front := rows[..|rows| - 1];
      assert forall i :: 0 <= i < |front| ==> p(front[i]) by {
        forall i | 0 <= i < |front| ensures p(front[i]) {
          assert front[i] == rows[i];
        }
      }
      GroupPreserves(front, key, k, p);
    }
  }

  /** Filtering out rows of other groups leaves a group as it was. */
  lemma {:induction false} GroupOfFiltered<T(!new)>(rows: seq<T>, key: T -> Option<string>, keep: T -> bool, k: string)
    requires forall r :: key(r) == Some(k) ==> keep(r)
    ensures Group(Where(rows, keep), key, k) == Group(rows, key, k)
    decreases |rows|
  {
    if rows != [] {
      var front := rows[..|rows| - 1];
      var x := rows[|rows| - 1];
      GroupOfFiltered(front, key, keep, k);
      var w := Where(front, keep);
      if keep(x) {
        assert Where(rows, keep) == w + [x];
        assert (w + [x])[..|w|] == w;
      } else {
        assert Where(rows, keep) == w;
      }
    }
  }

  /** The group sums over `keys` are unchanged by filtering out rows whose key is not among them. */
  lemma {:induction false} GroupsColumnSumOfFiltered<T(!new)>(rows: seq<T>, key: T -> Option<string>, keep: T -> bool, keys: seq<string>, col: T -> int)
    requires forall r, k :: k in keys && key(r) == Some(k) ==> keep(r)
    ensures GroupsColumnSum(Where(rows, keep), key, keys, col) == GroupsColumnSum(rows, key, keys, col)
    decreases |keys|
  {
    if keys != [] {
      var ks := keys[..|keys| - 1];
      var k := keys[|keys| - 1];
      assert forall r, k' :: k' in ks && key(r) == Some(k') ==> keep(r) by {
        forall r, k' | k' in ks && key(r) == Some(k') ensures keep(r) {
          assert k' in keys;
        }
      }
      GroupsColumnSumOfFiltered(rows, key, keep, ks, col);
      GroupOfFiltered(rows, key, keep, k);
    }
  }

  /** A key no row has forms an empty group. */
  lemma {:induction false} GroupOfAbsentKey<T>(rows: seq<T>, key: T -> Option<string>, k: string)
    requires forall i :: 0 <= i < |rows| ==> key(rows[i]) != Some(k)
    ensures Group(rows, key, k) == []
    decreases |rows|
  {
    if rows != [] {
      var front := rows[..|rows| - 1];
      assert forall i :: 0 <= i < |front| ==> key(front[i]) != Some(k) by {
        forall i | 0 <= i < |front| ensures key(front[i]) != Some(k) {
          assert front[i] == rows[i];
        }
      }
      GroupOfAbsentKey(front, key, k);
    }
  }

  /** A group keeps each row of its key as often as it occurs, and no other row. */
  lemma {:induction false} GroupCounts<T(!new)>(rows: seq<T>, key: T -> Option<string>, k: string)
    ensures forall x :: multiset(Group(rows, key, k))[x] == if key(x) == Some(k) then multiset(rows)[x] else 0
    decreases |rows|
  {
    if rows != [] {
      var front := rows[..|rows| - 1];
      GroupCounts(front, key, k);
      assert rows == front + [rows[|rows| - 1]];
    }
  }

  /** A keyed row is in the group of its key, and its key is listed. */
  lemma InGroup<T(!new)>(rows: seq<T>, key: T -> Option<string>, x: T)
    requires x in rows && key(x).Some?
    ensures x in Group(rows, key, key(x).value)
    ensures key(x).value in Keys(rows, key)
  {
    GroupCounts(rows, key, key(x).value);
    assert x in multiset(Group(rows, key, key(x).value));
    var i :| 0 <= i < |rows| && rows[i] == x;
  }

  /** A group's sum does not depend on the order of the rows. */
  lemma GroupSumPermutation<T(!new)>(a: seq<T>, b: seq<T>, key: T -> Option<string>, k: string, col: T -> int)
    requires multiset(a) == multiset(b)
    ensures ColumnSum(Group(a, key, k), col) == ColumnSum(Group(b, key, k), col)
  {
    GroupCounts(a, key, k);
    GroupCounts(b, key, k);
    assert multiset(Group(a, key, k)) == multiset(Group(b, key, k));
    ColumnSumPermutation(Group(a, key, k), Group(b, key, k), col);
  }

  /** Grouping two pieces, one after the other. */
  lemma {:induction false} GroupAppend<T>(a: seq<T>, b: seq<T>, key: T -> Option<string>, k: string)
    ensures Group(a + b, key, k) == Group(a, key, k) + Group(b, key, k)
    decreases |b|
  {
    if b == [] {
      assert a + b == a;
    } else {
      var front := b[..|b| - 1];
      assert (a + b)[..|a + b| - 1] == a + front;
      assert (a + b)[|a + b| - 1] == b[|b| - 1];
      GroupAppend(a, front, key, k);
    }
  }

  /** Rows that all share one key form that key's group and no other. */
  lemma {:induction false} GroupOfUniform<T>(rows: seq<T>, key: T -> Option<string>, k: string, d: string)
    requires forall i :: 0 <= i < |rows| ==> key(rows[i]) == Some(k)
    ensures Group(rows, key, d) == if d == k then rows else []
    decreases |rows|
  {
    if rows != [] {
      var front := rows[..|rows| - 1];
      assert forall i :: 0 <= i < |front| ==> key(front[i]) == Some(k) by {
        forall i | 0 <= i < |front| ensures key(front[i]) == Some(k) {
          assert front[i] == rows[i];
        }
      }
      var last := rows[|rows| - 1];
      GroupOfUniform(front, key, k, d);
      GroupSnocRow(front, last, key, d);
      if d == k {
        assert Group(rows, key, d) == front + [last];
        assert rows == front + [last];
      } else {
        assert Group(rows, key, d) == [];
      }
    }
  }

  /** One piece per key, the pieces one after the other (a loop over `groupby` that concatenates). */
  function ConcatKeys<U>(keys: seq<string>, piece: string -> seq<U>): seq<U>
  {
    if keys == [] then [] else ConcatKeys(keys[..|keys| - 1], piece) + piece(keys[|keys| - 1])
  }

  lemma {:induction false} ConcatKeysHas<U>(keys: seq<string>, piece: string -> seq<U>, k: string, x: U)
    requires k in keys && x in piece(k)
    ensures x in ConcatKeys(keys, piece)
    decreases |keys|
  {
    var ks := keys[..|keys| - 1];
    if k != keys[|keys| - 1] {
      var m :| 0 <= m < |keys| && keys[m] == k;
      assert ks[m] == k;
      ConcatKeysHas(ks, piece, k, x);
    }
  }

  /** An element of the concatenation comes from the piece of one of the keys. */
  lemma {:induction false} ConcatKeysOnly<U>(keys: seq<string>, piece: string -> seq<U>, x: U) returns (k: string)
    requires x in ConcatKeys(keys, piece)
    ensures k in keys && x in piece(k)
    decreases |keys|
  {
    var ks := keys[..|keys| - 1];
    if x in ConcatKeys(ks, piece) {
      k := ConcatKeysOnly(ks, piece, x);
      var m :| 0 <= m < |ks| && ks[m] == k;
      assert keys[m] == k;
    } else {
      k := keys[|keys| - 1];
    }
  }

  /** A property of every element of every piece holds throughout the concatenation. */
  lemma {:induction false} ConcatKeysPreserves<U>(keys: seq<string>, piece: string -> seq<U>, p: U -> bool)
    requires forall k, i :: k in keys && 0 <= i < |piece(k)| ==> p(piece(k)[i])
    ensures forall i :: 0 <= i < |ConcatKeys(keys, piece)| ==> p(ConcatKeys(keys, piece)[i])
    decreases |keys|
  {
    if keys != [] {
      var ks := keys[..|keys| - 1];
      var k := keys[|keys| - 1];
      assert forall k', i :: k' in ks && 0 <= i < |piece(k')| ==> p(piece(k')[i]) by {
        forall k', i | k' in ks && 0 <= i < |piece(k')| ensures p(piece(k')[i]) {
          var m :| 0 <= m < |ks| && ks[m] == k';
          assert keys[m] == k';
        }
      }
      ConcatKeysPreserves(ks, piece, p);
      var front := ConcatKeys(ks, piece);
      forall i | 0 <= i < |front + piece(k)| ensures p((front + piece(k))[i]) {
        if i >= |front| {
          assert (front + piece(k))[i] == piece(k)[i - |front|];
        } else {
          assert (front + piece(k))[i] == front[i];
        }
      }
    }
  }

  /** Taking one more key appends that key's piece. */
  lemma ConcatKeysSnoc<U>(keys: seq<string>, piece: string -> seq<U>, i: nat)
    requires i < |keys|
    ensures ConcatKeys(keys[..i + 1], piece) == ConcatKeys(keys[..i], piece) + piece(keys[i])
  {
    assert keys[..i + 1][..i] == keys[..i];
  }

  /** When each key's piece sums as that key's group, the concatenation sums as all the groups. */
  lemma {:induction false} ConcatKeysSum<T, U>(keys: seq<string>, piece: string -> seq<U>, lcol: U -> int,
                                              rows: seq<T>, key: T -> Option<string>, rcol: T -> int)
    requires forall k :: k in keys ==> ColumnSum(piece(k), lcol) == ColumnSum(Group(rows, key, k), rcol)
    ensures ColumnSum(ConcatKeys(keys, piece), lcol) == GroupsColumnSum(rows, key, keys, rcol)
    decreases |keys|
  {
    if keys != [] {
      var ks := keys[..|keys| - 1];
      var k := keys[|keys| - 1];
      assert forall k' :: k' in ks ==> k' in keys by {
        forall k' | k' in ks ensures k' in keys {
          var m :| 0 <= m < |ks| && ks[m] == k';
          assert keys[m] == k';
        }
      }
      ConcatKeysSum(ks, piece, lcol, rows, key, rcol);
      ColumnSumAppend(ConcatKeys(ks, piece), piece(k), lcol);
    }
  }

  /** The last of distinct keys is not among the others. */
  lemma LastKeyIsNew(keys: seq<string>)
    requires |keys| > 0 && Distinct(keys)
    ensures keys[|keys| - 1] !in keys[..|keys| - 1]
    ensures Distinct(keys[..|keys| - 1])
  {
    var ks := keys[..|keys| - 1];
    forall m | 0 <= m < |ks| ensures ks[m] != keys[|keys| - 1] {
      assert keys[m] == ks[m];
    }
  }

  /** A key other than the last is among the keys exactly when it is among the others. */
  lemma EarlierKey(keys: seq<string>, d: string)
    requires |keys| > 0 && d != keys[|keys| - 1]
    ensures d in keys <==> d in keys[..|keys| - 1]
  {
    var ks := keys[..|keys| - 1];
    if d in keys {
      var m :| 0 <= m < |keys| && keys[m] == d;
      assert ks[m] == d;
    }
    if d in ks {
      var m :| 0 <= m < |ks| && ks[m] == d;
      assert keys[m] == d;
    }
  }

  /** Pieces keyed by their own key, over every key but the last. */
  lemma KeyedPiecesFront<U>(keys: seq<string>, piece: string -> seq<U>, key: U -> Option<string>)
    requires |keys| > 0
    requires forall k, i :: k in keys && 0 <= i < |piece(k)| ==> key(piece(k)[i]) == Some(k)
    ensures forall k, i :: k in keys[..|keys| - 1] && 0 <= i < |piece(k)| ==> key(piece(k)[i]) == Some(k)
  {
    var ks := keys[..|keys| - 1];
    forall k, i | k in ks && 0 <= i < |piece(k)| ensures key(piece(k)[i]) == Some(k) {
      var m :| 0 <= m < |ks| && ks[m] == k;
      assert keys[m] == k;
    }
  }

  /**
    When each key's piece holds elements of that key only, the group of a key
    in the concatenation is its piece, and nothing for a key not listed.
  */
  lemma {:induction false} ConcatKeysGroup<U>(keys: seq<string>, piece: string -> seq<U>, key: U -> Option<string>, d: string)
    requires Distinct(keys)
    requires forall k, i :: k in keys && 0 <= i < |piece(k)| ==> key(piece(k)[i]) == Some(k)
    ensures Group(ConcatKeys(keys, piece), key, d) == if d in keys then piece(d) else []
    decreases |keys|
  {
    if keys != [] {
      var ks := keys[..|keys| - 1];
      var k := keys[|keys| - 1];
      LastKeyIsNew(keys);
      KeyedPiecesFront(keys, piece, key);
      ConcatKeysGroup(ks, piece, key, d);
      GroupAppend(ConcatKeys(ks, piece), piece(k), key, d);
      GroupOfUniform(piece(k), key, k, d);
      if d != k {
        EarlierKey(keys, d);
      }
    } else {
      GroupOfAbsentKey(ConcatKeys(keys, piece), key, d);
    }
  }

  /** When each key's piece lists exactly that key's group, the concatenation lists all the groups. */
  lemma {:induction false} ConcatKeysItems<T>(keys: seq<string>, piece: string -> seq<Line<T>>, rows: seq<T>, key: T -> Option<string>)
    requires forall k :: k in keys ==> multiset(ItemRows(piece(k))) == multiset(Group(rows, key, k))
    ensures multiset(ItemRows(ConcatKeys(keys, piece))) == multiset(GroupsConcat(rows, key, keys))
    decreases |keys|
  {
    if keys != [] {
      var ks := keys[..|keys| - 1];
      var k := keys[|keys| - 1];
      assert forall k' :: k' in ks ==> k' in keys;
      ConcatKeysItems(ks, piece, rows, key);
      ItemRowsAppend(ConcatKeys(ks, piece), piece(k));
    }
  }

  /** One value per key sums as the groups when each key's value sums as its group. */
  lemma {:induction false} MapKeysSum<T, U>(keys: seq<string>, f: string -> U, lcol: U -> int,
                                           rows: seq<T>, key: T -> Option<string>, rcol: T -> int)
    requires forall k :: k in keys ==> lcol(f(k)) == ColumnSum(Group(rows, key, k), rcol)
    ensures ColumnSum(MapRows(keys, f), lcol) == GroupsColumnSum(rows, key, keys, rcol)
    decreases |keys|
  {
    if keys != [] {
      var ks := keys[..|keys| - 1];
      assert forall k :: k in ks ==> k in keys;
      assert MapRows(keys, f)[..|keys| - 1] == MapRows(ks, f);
      MapKeysSum(ks, f, lcol, rows, key, rcol);
    }
  }

  /** A filter keeps distinct keys distinct. */
  lemma {:induction false} WhereDistinct(keys: seq<string>, keep: string -> bool)
    requires Distinct(keys)
    ensures Distinct(Where(keys, keep))
    decreases |keys|
  {
    if keys != [] {
      var front := keys[..|keys| - 1];
      var x := keys[|keys| - 1];
      assert Distinct(front) by {
        forall i, j | 0 <= i < j < |front| ensures front[i] != front[j] {
          assert front[i] == keys[i] && front[j] == keys[j];
        }
      }
      WhereDistinct(front, keep);
      var w := Where(front, keep);
      if keep(x) {
        WhereCounts(front, keep);
        assert x !in front by {
          forall i | 0 <= i < |front| ensures front[i] != x {
            assert front[i] == keys[i];
          }
        }
        assert Where(keys, keep) == w + [x];
        forall i | 0 <= i < |w| ensures w[i] != x {
          assert w[i] in multiset(w);
        }
      }
    }
  }

  /** The `first` aggregation: the first present value of a column (missing values are skipped). */
  function FirstPresent<U>(col: seq<Option<U>>): (r: Option<U>)
    ensures r.None? <==> forall i :: 0 <= i < |col| ==> col[i].None?
    ensures r.Some? ==> exists i :: 0 <= i < |col| && col[i] == r && forall j :: 0 <= j < i ==> col[j].None?
  {
    if col == [] then None
    else if col[0].Some? then col[0]
    else
      var r := FirstPresent(col[1..]);
      assert r.Some? ==> exists i :: 0 <= i < |col| && col[i] == r && forall j :: 0 <= j < i ==> col[j].None? by {
        if r.Some? {
          var i :| 0 <= i < |col[1..]| && col[1..][i] == r && forall j :: 0 <= j < i ==> col[1..][j].None?;
          assert col[i + 1] == r;
          assert forall j :: 0 <= j < i + 1 ==> col[j].None? by {
            forall j | 0 <= j < i + 1 ensures col[j].None? {
              if j > 0 { assert col[j] == col[1..][j - 1]; }
            }
          }
        }
      }
      r
  }

  // ---------------------------------------------------------------------------
  // summary table: one line per group, then 总计
  // ---------------------------------------------------------------------------

  datatype SummaryLine = GroupLine(group: string, sums: seq<int>) | TotalLine(sums: seq<int>)

  function GroupLines<T>(rows: seq<T>, key: T -> Option<string>, keys: seq<string>, cols: seq<T -> int>): (r: seq<SummaryLine>)
    ensures |r| == |keys|
    ensures forall i :: 0 <= i < |r| ==> r[i] == GroupLine(keys[i], Sums(Group(rows, key, keys[i]), cols))
  {
    if keys == [] then []
    else GroupLines(rows, key, keys[..|keys| - 1], cols)
         + [GroupLine(keys[|keys| - 1], Sums(Group(rows, key, keys[|keys| - 1]), cols))]
  }

  /** The sum of column `j` over summary lines (`summary_table[col].sum()`). */
  function LinesColumn(lines: seq<SummaryLine>, j: nat): int
  {
    if lines == [] then 0
    else
      var last := lines[|lines| - 1];
      LinesColumn(lines[..|lines| - 1], j) + (if j < |last.sums| then last.sums[j] else 0)
  }

  /** `groupby(key)[cols].sum()` followed by the `总计` line of its column sums. */
  function Summary<T>(rows: seq<T>, key: T -> Option<string>, cols: seq<T -> int>): seq<SummaryLine>
  {
    var groups := GroupLines(rows, key, Keys(rows, key), cols);
    groups + [TotalLine(seq(|cols|, j requires 0 <= j < |cols| => LinesColumn(groups, j)))]
  }

  lemma {:induction false} LinesColumnOfGroups<T>(rows: seq<T>, key: T -> Option<string>, keys: seq<string>, cols: seq<T -> int>, j: nat)
    requires j < |cols|
    ensures LinesColumn(GroupLines(rows, key, keys, cols), j) == GroupsColumnSum(rows, key, keys, cols[j])
    decreases |keys|
  {
    if keys != [] {
      var lines := GroupLines(rows, key, keys, cols);
      assert lines[..|lines| - 1] == GroupLines(rows, key, keys[..|keys| - 1], cols);
      LinesColumnOfGroups(rows, key, keys[..|keys| - 1], cols, j);
    }
  }

  /**
    The summary has one line per distinct present key, in key order, each
    holding its group's sums, and its last line is the 总计 of every keyed row.
  */
  lemma SummaryTotals<T>(rows: seq<T>, key: T -> Option<string>, cols: seq<T -> int>)
    ensures var s := Summary(rows, key, cols);
      var keys := Keys(rows, key);
      |s| == |keys| + 1
      && (forall i :: 0 <= i < |keys| ==> s[i] == GroupLine(keys[i], Sums(Group(rows, key, keys[i]), cols)))
      && s[|keys|] == TotalLine(Sums(Keyed(rows, key), cols))
  {
    var keys := Keys(rows, key);
    var groups := GroupLines(rows, key, keys, cols);
    forall j | 0 <= j < |cols| ensures LinesColumn(groups, j) == ColumnSum(Keyed(rows, key), cols[j]) {
      LinesColumnOfGroups(rows, key, keys, cols, j);
      GroupSumsAddUp(rows, key, keys, cols[j]);
    }
  }

  lemma {:induction false} PresentKeysMapped<T>(rows: seq<T>, f: T -> T, key: T -> Option<string>)
    requires forall i :: 0 <= i < |rows| ==> key(f(rows[i])) == key(rows[i])
    ensures PresentKeys(MapRows(rows, f), key) == PresentKeys(rows, key)
    decreases |rows|
  {
    if rows != [] {
      assert MapRows(rows, f)[..|rows| - 1] == MapRows(rows[..|rows| - 1], f);
      PresentKeysMapped(rows[..|rows| - 1], f, key);
    }
  }

  lemma {:induction false} GroupMapped<T>(rows: seq<T>, f: T -> T, key: T -> Option<string>, k: string)
    requires forall i :: 0 <= i < |rows| ==> key(f(rows[i])) == key(rows[i])
    ensures Group(MapRows(rows, f), key, k) == MapRows(Group(rows, key, k), f)
    decreases |rows|
  {
    if rows != [] {
      var front := rows[..|rows| - 1];
      assert MapRows(rows, f)[..|rows| - 1] == MapRows(front, f);
      GroupMapped(front, f, key, k);
      var x := rows[|rows| - 1];
      var g := Group(front, key, k);
      if key(x) == Some(k) {
        assert MapRows(g + [x], f) == MapRows(g, f) + [f(x)];
      } else {
        assert g + [] == g;
      }
    }
  }

  /**
    Rewriting rows in a way that keeps their key and every summed column
    (`fillna(0)` before a `sum()` that skips NaN anyway) leaves the summary as it was.
  */
  lemma SummaryMapped<T>(rows: seq<T>, f: T -> T, key: T -> Option<string>, cols: seq<T -> int>)
    requires forall i :: 0 <= i < |rows| ==> key(f(rows[i])) == key(rows[i])
    requires forall i, j :: 0 <= i < |rows| && 0 <= j < |cols| ==> cols[j](f(rows[i])) == cols[j](rows[i])
    ensures Summary(MapRows(rows, f), key, cols) == Summary(rows, key, cols)
  {
    var mapped := MapRows(rows, f);
    PresentKeysMapped(rows, f, key);
    var keys := Keys(rows, key);
    forall i | 0 <= i < |keys|
      ensures Sums(Group(mapped, key, keys[i]), cols) == Sums(Group(rows, key, keys[i]), cols)
    {
      var g := Group(rows, key, keys[i]);
      GroupMapped(rows, f, key, keys[i]);
      forall j | 0 <= j < |cols| ensures ColumnSum(MapRows(g, f), cols[j]) == ColumnSum(g, cols[j]) {
        var col := cols[j];
        GroupPreserves(rows, key, keys[i], x => col(f(x)) == col(x));
        ColumnSumMapped(g, f, col);
      }
    }
    assert GroupLines(mapped, key, keys, cols) == GroupLines(rows, key, keys, cols);
  }

  // ---------------------------------------------------------------------------
  // detail table: each group's rows, its 汇总 line, and a final 总计 line
  // ---------------------------------------------------------------------------

  datatype Line<T> = Item(row: T) | Subtotal(group: string, sums: seq<int>) | GrandTotal(sums: seq<int>)

  function AsItems<T>(rows: seq<T>): (r: seq<Line<T>>)
    ensures |r| == |rows|
    ensures forall i :: 0 <= i < |rows| ==> r[i] == Item(rows[i])
  {
    seq(|rows|, i requires 0 <= i < |rows| => Item(rows[i]))
  }

  lemma AsItemsAppend<T>(a: seq<T>, b: seq<T>)
    ensures AsItems(a + b) == AsItems(a) + AsItems(b)
  {
  }

  /** The rows listed by the item lines, in order. */
  function ItemRows<T>(lines: seq<Line<T>>): seq<T>
  {
    if lines == [] then []
    else ItemRows(lines[..|lines| - 1]) + (if lines[|lines| - 1].Item? then [lines[|lines| - 1].row] else [])
  }

  lemma {:induction false} ItemRowsAppend<T>(a: seq<Line<T>>, b: seq<Line<T>>)
    ensures ItemRows(a + b) == ItemRows(a) + ItemRows(b)
    decreases |b|
  {
    if b != [] {
      assert (a + b)[..|a + b| - 1] == a + b[..|b| - 1];
      ItemRowsAppend(a, b[..|b| - 1]);
    } else {
      assert a + b == a;
    }
  }

  lemma {:induction false} ItemRowsOfItems<T>(rows: seq<T>)
    ensures ItemRows(AsItems(rows)) == rows
    decreases |rows|
  {
    if rows != [] {
      assert AsItems(rows)[..|rows| - 1] == AsItems(rows[..|rows| - 1]);
      ItemRowsOfItems(rows[..|rows| - 1]);
    }
  }

  /**
    How a group's rows are listed: as they come (`None`), or regrouped by a
    second key, one inner group after another in that key's order.
  */
  function Arranged<T>(g: seq<T>, inner: Option<T -> Option<string>>): seq<T>
  {
    if inner.None? then g else GroupsConcat(g, inner.value, Keys(g, inner.value))
  }

  lemma ArrangedPermutation<T>(g: seq<T>, inner: Option<T -> Option<string>>)
    requires inner.Some? ==> forall i :: 0 <= i < |g| ==> inner.value(g[i]).Some?
    ensures multiset(Arranged(g, inner)) == multiset(g)
  {
    if inner.Some? {
      GroupsConcatPermutation(g, inner.value, Keys(g, inner.value));
      KeyedAll(g, inner.value);
    }
  }

  /** One group of the detail: its rows, then its `<key> 汇总` line. */
  function Block<T>(rows: seq<T>, key: T -> Option<string>, k: string, inner: Option<T -> Option<string>>, cols: seq<T -> int>): seq<Line<T>>
  {
    var g := Group(rows, key, k);
    AsItems(Arranged(g, inner)) + [Subtotal(k, Sums(g, cols))]
  }

  function Blocks<T>(rows: seq<T>, key: T -> Option<string>, keys: seq<string>, inner: Option<T -> Option<string>>, cols: seq<T -> int>): seq<Line<T>>
  {
    if keys == [] then []
    else Blocks(rows, key, keys[..|keys| - 1], inner, cols) + Block(rows, key, keys[|keys| - 1], inner, cols)
  }

  /** The detail table: every group's block in key order, then `总计`. */
  function Detail<T>(rows: seq<T>, key: T -> Option<string>, inner: Option<T -> Option<string>>, cols: seq<T -> int>): seq<Line<T>>
  {
    Blocks(rows, key, Keys(rows, key), inner, cols) + [GrandTotal(Sums(rows, cols))]
  }

  /** The sum of column `j` over the subtotal lines. */
  function SubtotalColumn<T>(lines: seq<Line<T>>, j: nat): int
  {
    if lines == [] then 0
    else
      var last := lines[|lines| - 1];
      SubtotalColumn(lines[..|lines| - 1], j) + (if last.Subtotal? && j < |last.sums| then last.sums[j] else 0)
  }

  lemma {:induction false} SubtotalColumnAppend<T>(a: seq<Line<T>>, b: seq<Line<T>>, j: nat)
    ensures SubtotalColumn(a + b, j) == SubtotalColumn(a, j) + SubtotalColumn(b, j)
    decreases |b|
  {
    if b != [] {
      assert (a + b)[..|a + b| - 1] == a + b[..|b| - 1];
      SubtotalColumnAppend(a, b[..|b| - 1], j);
    } else {
      assert a + b == a;
    }
  }

  lemma {:induction false} SubtotalColumnOfItems<T>(rows: seq<T>, j: nat)
    ensures SubtotalColumn(AsItems(rows), j) == 0
    decreases |rows|
  {
    if rows != [] {
      assert AsItems(rows)[..|rows| - 1] == AsItems(rows[..|rows| - 1]);
      SubtotalColumnOfItems(rows[..|rows| - 1], j);
    }
  }

  /** A block lists its group's rows, arranged, and nothing else. */
  lemma BlockItems<T>(rows: seq<T>, key: T -> Option<string>, k: string, inner: Option<T -> Option<string>>, cols: seq<T -> int>)
    ensures ItemRows(Block(rows, key, k, inner, cols)) == Arranged(Group(rows, key, k), inner)
  {
    var g := Group(rows, key, k);
    var sub: seq<Line<T>> := [Subtotal(k, Sums(g, cols))];
    ItemRowsAppend(AsItems(Arranged(g, inner)), sub);
    ItemRowsOfItems(Arranged(g, inner));
    assert ItemRows(sub) == [] by { assert sub[..0] == []; }
  }

  /** A block's only 汇总 line holds its group's sums. */
  lemma BlockSubtotalColumn<T>(rows: seq<T>, key: T -> Option<string>, k: string, inner: Option<T -> Option<string>>, cols: seq<T -> int>, j: nat)
    requires j < |cols|
    ensures SubtotalColumn(Block(rows, key, k, inner, cols), j) == ColumnSum(Group(rows, key, k), cols[j])
  {
    var g := Group(rows, key, k);
    var sub: seq<Line<T>> := [Subtotal(k, Sums(g, cols))];
    SubtotalColumnAppend(AsItems(Arranged(g, inner)), sub, j);
    SubtotalColumnOfItems(Arranged(g, inner), j);
    assert sub[..0] == [];
  }

  /** Regrouping a group by a present inner key keeps its rows. */
  lemma GroupArrangedPermutation<T>(rows: seq<T>, key: T -> Option<string>, k: string, inner: Option<T -> Option<string>>)
    requires inner.Some? ==> forall i :: 0 <= i < |rows| ==> inner.value(rows[i]).Some?
    ensures multiset(Arranged(Group(rows, key, k), inner)) == multiset(Group(rows, key, k))
  {
    var g := Group(rows, key, k);
    GroupIsSubset(rows, key, k);
    assert inner.Some? ==> forall i :: 0 <= i < |g| ==> inner.value(g[i]).Some? by {
      if inner.Some? {
        forall i | 0 <= i < |g| ensures inner.value(g[i]).Some? {
          assert g[i] in multiset(rows);
        }
      }
    }
    ArrangedPermutation(g, inner);
  }

  lemma {:induction false} BlocksItems<T>(rows: seq<T>, key: T -> Option<string>, keys: seq<string>, inner: Option<T -> Option<string>>, cols: seq<T -> int>)
    requires inner.Some? ==> forall i :: 0 <= i < |rows| ==> inner.value(rows[i]).Some?
    ensures multiset(ItemRows(Blocks(rows, key, keys, inner, cols))) == multiset(GroupsConcat(rows, key, keys))
    decreases |keys|
  {
    if keys != [] {
      var ks := keys[..|keys| - 1];
      var k := keys[|keys| - 1];
      BlocksItems(rows, key, ks, inner, cols);
      ItemRowsAppend(Blocks(rows, key, ks, inner, cols), Block(rows, key, k, inner, cols));
      BlockItems(rows, key, k, inner, cols);
      GroupArrangedPermutation(rows, key, k, inner);
    }
  }

  lemma {:induction false} BlocksSubtotals<T>(rows: seq<T>, key: T -> Option<string>, keys: seq<string>, inner: Option<T -> Option<string>>, cols: seq<T -> int>, j: nat)
    requires j < |cols|
    ensures SubtotalColumn(Blocks(rows, key, keys, inner, cols), j) == GroupsColumnSum(rows, key, keys, cols[j])
    decreases |keys|
  {
    if keys != [] {
      var ks := keys[..|keys| - 1];
      var k := keys[|keys| - 1];
      BlocksSubtotals(rows, key, ks, inner, cols, j);
      SubtotalColumnAppend(Blocks(rows, key, ks, inner, cols), Block(rows, key, k, inner, cols), j);
      BlockSubtotalColumn(rows, key, k, inner, cols, j);
    }
  }

  lemma {:induction false} GroupIsSubset<T>(rows: seq<T>, key: T -> Option<string>, k: string)
    ensures multiset(Group(rows, key, k)) <= multiset(rows)
    decreases |rows|
  {
    if rows != [] {
      GroupIsSubset(rows[..|rows| - 1], key, k);
      assert rows == rows[..|rows| - 1] + [rows[|rows| - 1]];
    }
  }

  /**
    The detail lists every keyed row exactly once (the rows with a missing key
    are not listed), its 汇总 lines add up to the sums of the keyed rows, and
    its last line is the 总计 of `rows`, which is the same when every row is
    keyed.
  */
  lemma DetailFacts<T>(rows: seq<T>, key: T -> Option<string>, inner: Option<T -> Option<string>>, cols: seq<T -> int>)
    requires inner.Some? ==> forall i :: 0 <= i < |rows| ==> inner.value(rows[i]).Some?
    ensures var d := Detail(rows, key, inner, cols);
      multiset(ItemRows(d)) == multiset(Keyed(rows, key))
      && d[|d| - 1] == GrandTotal(Sums(rows, cols))
      && forall j :: 0 <= j < |cols| ==> SubtotalColumn(d, j) == ColumnSum(Keyed(rows, key), cols[j])
  {
    var keys := Keys(rows, key);
    var b := Blocks(rows, key, keys, inner, cols);
    var t := [GrandTotal(Sums(rows, cols))];
    BlocksItems(rows, key, keys, inner, cols);
    GroupsConcatPermutation(rows, key, keys);
    ItemRowsAppend(b, t);
    assert ItemRows(t) == [] by { assert t[..0] == []; }
    forall j | 0 <= j < |cols| ensures SubtotalColumn(b + t, j) == ColumnSum(Keyed(rows, key), cols[j]) {
      SubtotalColumnAppend(b, t, j);
      BlocksSubtotals(rows, key, keys, inner, cols, j);
      assert SubtotalColumn(t, j) == 0 by { assert t[..0] == []; }
      GroupSumsAddUp(rows, key, keys, cols[j]);
    }
  }

  /** A block lists its group's rows and no other, each once, and its 汇总 line holds their sums. */
  lemma BlockFacts<T>(rows: seq<T>, key: T -> Option<string>, k: string, inner: Option<T -> Option<string>>, cols: seq<T -> int>)
    requires inner.Some? ==> forall i :: 0 <= i < |rows| ==> inner.value(rows[i]).Some?
    ensures var b := Block(rows, key, k, inner, cols);
      var listed := ItemRows(b);
      multiset(listed) == multiset(Group(rows, key, k))
      && (forall i :: 0 <= i < |listed| ==> key(listed[i]) == Some(k))
      && b[|b| - 1] == Subtotal(k, Sums(listed, cols))
  {
    var g := Group(rows, key, k);
    GroupArrangedPermutation(rows, key, k, inner);
    BlockItems(rows, key, k, inner, cols);
    var listed := Arranged(g, inner);
    forall i | 0 <= i < |listed| ensures key(listed[i]) == Some(k) {
      assert listed[i] in multiset(g);
    }
    SumsPermutation(listed, g, cols);
  }

  lemma BlocksSnoc<T>(rows: seq<T>, key: T -> Option<string>, keys: seq<string>, i: nat, inner: Option<T -> Option<string>>, cols: seq<T -> int>)
    requires i < |keys|
    ensures Blocks(rows, key, keys[..i + 1], inner, cols)
         == Blocks(rows, key, keys[..i], inner, cols) + Block(rows, key, keys[i], inner, cols)
  {
    assert keys[..i + 1][..i] == keys[..i];
  }

  /** The report loop: each group's rows as listed, then its 汇总 line; finally 总计. */
  method BuildDetail<T>(rows: seq<T>, key: T -> Option<string>, cols: seq<T -> int>) returns (lines: seq<Line<T>>)
    ensures lines == Detail(rows, key, None, cols)
  {
    var keys := Keys(rows, key);
    lines := [];
    var i := 0;
    while i < |keys|
      invariant 0 <= i <= |keys|
      invariant lines == Blocks(rows, key, keys[..i], None, cols)
    {
      var g := Group(rows, key, keys[i]);
      BlocksSnoc(rows, key, keys, i, None, cols);
      lines := lines + AsItems(g) + [Subtotal(keys[i], Sums(g, cols))];
      i := i + 1;
    }
    assert keys[..i] == keys;
    lines := lines + [GrandTotal(Sums(rows, cols))];
  }

  lemma GroupsConcatSnoc<T>(rows: seq<T>, key: T -> Option<string>, keys: seq<string>, j: nat)
    requires j < |keys|
    ensures AsItems(GroupsConcat(rows, key, keys[..j + 1]))
         == AsItems(GroupsConcat(rows, key, keys[..j])) + AsItems(Group(rows, key, keys[j]))
  {
    assert keys[..j + 1][..j] == keys[..j];
    AsItemsAppend(GroupsConcat(rows, key, keys[..j]), Group(rows, key, keys[j]));
  }

  /** The inner loop of the nested report: one inner group after another, in inner-key order. */
  method ListInnerGroups<T>(g: seq<T>, inner: T -> Option<string>) returns (items: seq<Line<T>>)
    ensures items == AsItems(Arranged(g, Some(inner)))
  {
    var innerKeys := Keys(g, inner);
    items := [];
    var j := 0;
    while j < |innerKeys|
      invariant 0 <= j <= |innerKeys|
      invariant items == AsItems(GroupsConcat(g, inner, innerKeys[..j]))
    {
      GroupsConcatSnoc(g, inner, innerKeys, j);
      items := items + AsItems(Group(g, inner, innerKeys[j]));
      j := j + 1;
    }
    assert innerKeys[..j] == innerKeys;
  }

  /** The nested report loop: per group, per inner group, the rows; then 汇总; finally 总计. */
  method BuildNestedDetail<T>(rows: seq<T>, key: T -> Option<string>, inner: T -> Option<string>, cols: seq<T -> int>)
    returns (lines: seq<Line<T>>)
    ensures lines == Detail(rows, key, Some(inner), cols)
  {
    var keys := Keys(rows, key);
    lines := [];
    var i := 0;
    while i < |keys|
      invariant 0 <= i <= |keys|
      invariant lines == Blocks(rows, key, keys[..i], Some(inner), cols)
    {
      var block := NestedBlock(rows, key, keys[i], inner, cols);
      BlocksSnoc(rows, key, keys, i, Some(inner), cols);
      lines := lines + block;
      i := i + 1;
    }
    assert keys[..i] == keys;
    lines := lines + [GrandTotal(Sums(rows, cols))];
  }

  /** One group of the nested report: its inner groups' rows, then its 汇总 line. */
  method NestedBlock<T>(rows: seq<T>, key: T -> Option<string>, k: string, inner: T -> Option<string>, cols: seq<T -> int>)
    returns (block: seq<Line<T>>)
    ensures block == Block(rows, key, k, Some(inner), cols)
  {
    var g := Group(rows, key, k);
    var items := ListInnerGroups(g, inner);
    block := items + [Subtotal(k, Sums(g, cols))];
  }

  // ---------------------------------------------------------------------------
  // highlighting
  // ---------------------------------------------------------------------------

  datatype Mark = Plain | SubtotalMark | TotalMark

  const SubtotalSuffix: string := "汇总"
  const TotalLabel: string := "总计"

  /** `highlight_rows`: a text label ending in 汇总 is a subtotal, 总计 the total, anything else plain. */
  function MarkOf(text: Option<string>): (m: Mark)
    ensures m == SubtotalMark <==> text.Some? && EndsWith(text.value, SubtotalSuffix)
    ensures m == TotalMark <==> text == Some(TotalLabel)
  {
    if text.Some? && EndsWith(text.value, SubtotalSuffix) then SubtotalMark
    else if text == Some(TotalLabel) then TotalMark
    else Plain
  }

  /** The text of a summary line's 部门 column. */
  function SummaryLabel(line: SummaryLine): string
  {
    match line
    case GroupLine(g, _) => g
    case TotalLine(_) => TotalLabel
  }

  /** `highlight_total` of a summary table: the line whose label reads 总计 is coloured, no other. */
  function SummaryMark(line: SummaryLine): (m: Mark)
    ensures m != SubtotalMark
    ensures line.TotalLine? ==> m == TotalMark
    ensures line.GroupLine? ==> (m == TotalMark <==> line.group == TotalLabel)
  {
    if SummaryLabel(line) == TotalLabel then TotalMark else Plain
  }

  /** The text a detail line shows in its label column (`f"{dept} 汇总"` on subtotals). */
  function LineLabel<T>(line: Line<T>, key: T -> Option<string>): Option<string>
  {
    match line
    case Item(r) => key(r)
    case Subtotal(k, _) => Some(k + " " + SubtotalSuffix)
    case GrandTotal(_) => Some(TotalLabel)
  }

  /** Subtotal lines are highlighted as subtotals and the total line as the total. */
  lemma LineMarks<T>(line: Line<T>, key: T -> Option<string>)
    ensures line.Subtotal? ==> MarkOf(LineLabel(line, key)) == SubtotalMark
    ensures line.GrandTotal? ==> MarkOf(LineLabel(line, key)) == TotalMark
  {
    if line.Subtotal? {
      var s := line.group + " " + SubtotalSuffix;
      assert s[|s| - |SubtotalSuffix|..] == SubtotalSuffix;
    }
  }
}
