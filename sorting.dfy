/**
  The orderings the reports put on their rows and option lists: `sorted` on
  strings, `sort_values` on an integer key, `unique()` (first occurrences in
  order), and the "digit strings first, by integer value, then the other
  strings in text order" arrangement of identifier lists.
*/
module Sorting {

  import opened Text

  // ---------------------------------------------------------------------------
  // duplicates
  // ---------------------------------------------------------------------------

  /** Every element occurs once. */
  predicate NoDuplicates<T(==,!new)>(s: seq<T>)
  {
    forall x :: x in multiset(s) ==> multiset(s)[x] == 1
  }

  /** `pd.unique` / `Series.unique()`: the first occurrence of each value, in order of appearance. */
  function Unique<T(==,!new)>(s: seq<T>): (r: seq<T>)
    ensures NoDuplicates(r)
    ensures forall x :: x in r <==> x in s
    decreases |s|
  {
    if s == [] then []
    else
      var u := Unique(s[..|s| - 1]);
      var x := s[|s| - 1];
      assert s == s[..|s| - 1] + [x];
      if x in u then u else u + [x]
  }

  // ---------------------------------------------------------------------------
  // sorting on an integer key
  // ---------------------------------------------------------------------------

  predicate SortedByKey<T>(s: seq<T>, key: T -> int)
  {
    forall i, j :: 0 <= i < j < |s| ==> key(s[i]) <= key(s[j])
  }

  function InsertByKey<T(==)>(x: T, s: seq<T>, key: T -> int): (r: seq<T>)
    requires SortedByKey(s, key)
    ensures SortedByKey(r, key)
    ensures multiset(r) == multiset(s) + multiset{x}
  {
    if s == [] || key(x) <= key(s[0]) then
      ConsSorted(x, s, key);
      [x] + s
    else
      var t := InsertByKey(x, s[1..], key);
      assert s == [s[0]] + s[1..];
      assert forall j :: 0 <= j < |s[1..]| ==> key(s[0]) <= key(s[1..][j]) by {
        forall j | 0 <= j < |s[1..]| ensures key(s[0]) <= key(s[1..][j]) {
          assert s[1..][j] == s[j + 1];
        }
      }
      KeyBelowAll(s[0], s[1..], x, t, key);
      ConsSorted(s[0], t, key);
      [s[0]] + t
  }

  /** Putting a row in front of sorted rows keeps them sorted when its key is at most every other. */
  lemma ConsSorted<T>(h: T, t: seq<T>, key: T -> int)
    requires SortedByKey(t, key)
    requires forall k :: 0 <= k < |t| ==> key(h) <= key(t[k])
    ensures SortedByKey([h] + t, key)
  {
    var r := [h] + t;
    forall i, j | 0 <= i < j < |r| ensures key(r[i]) <= key(r[j]) {
      assert r[j] == t[j - 1];
      if i > 0 { assert r[i] == t[i - 1]; }
    }
  }

  /** A row whose key is at most every key of `rest` and of `x` is at most every key of a permutation of them. */
  lemma KeyBelowAll<T>(h: T, rest: seq<T>, x: T, t: seq<T>, key: T -> int)
    requires forall j :: 0 <= j < |rest| ==> key(h) <= key(rest[j])
    requires key(h) <= key(x)
    requires multiset(t) == multiset(rest) + multiset{x}
    ensures forall k :: 0 <= k < |t| ==> key(h) <= key(t[k])
  {
    forall k | 0 <= k < |t| ensures key(h) <= key(t[k]) {
      assert t[k] in multiset(t);
      if t[k] != x {
        assert t[k] in multiset(rest);
        var m :| 0 <= m < |rest| && rest[m] == t[k];
      }
    }
  }

  /** `sort_values(by=key)`: ordered by the key and a permutation of the rows. */
  function SortByKey<T(==)>(s: seq<T>, key: T -> int): (r: seq<T>)
    ensures SortedByKey(r, key)
    ensures multiset(r) == multiset(s)
  {
    if s == [] then []
    else
      assert s == [s[0]] + s[1..];
      InsertByKey(s[0], SortByKey(s[1..], key), key)
  }

  // ---------------------------------------------------------------------------
  // sorting strings
  // ---------------------------------------------------------------------------

  predicate SortedText(s: seq<string>)
  {
    forall i, j :: 0 <= i < j < |s| ==> LexLe(s[i], s[j])
  }

  function InsertText(x: string, s: seq<string>): (r: seq<string>)
    requires SortedText(s)
    ensures SortedText(r)
    ensures multiset(r) == multiset(s) + multiset{x}
  {
    if s == [] || LexLe(x, s[0]) then
      assert forall j :: 0 <= j < |s| ==> LexLe(x, s[j]) by {
        forall j | 0 <= j < |s| ensures LexLe(x, s[j]) {
          if j > 0 { LexLeTransitive(x, s[0], s[j]); }
        }
      }
      [x] + s
    else
      LexLeTotal(x, s[0]);
      var t := InsertText(x, s[1..]);
      assert s == [s[0]] + s[1..];
      assert forall j :: 0 <= j < |s[1..]| ==> LexLe(s[0], s[1..][j]) by {
        forall j | 0 <= j < |s[1..]| ensures LexLe(s[0], s[1..][j]) {
          assert s[1..][j] == s[j + 1];
        }
      }
      HeadBelowAll(s[0], s[1..], x, t);
      [s[0]] + t
  }

  /** A text below every element and below `x` is below every element of a permutation of them. */
  lemma HeadBelowAll(h: string, rest: seq<string>, x: string, t: seq<string>)
    requires forall j :: 0 <= j < |rest| ==> LexLe(h, rest[j])
    requires LexLe(h, x)
    requires multiset(t) == multiset(rest) + multiset{x}
    ensures forall k :: 0 <= k < |t| ==> LexLe(h, t[k])
  {
    forall k | 0 <= k < |t| ensures LexLe(h, t[k]) {
      assert t[k] in multiset(t);
      if t[k] != x {
        assert t[k] in multiset(rest);
        var m :| 0 <= m < |rest| && rest[m] == t[k];
      }
    }
  }

  /** `sorted(strings)`: in text order and a permutation of the input. */
  function SortText(s: seq<string>): (r: seq<string>)
    ensures SortedText(r)
    ensures multiset(r) == multiset(s)
  {
    if s == [] then []
    else
      assert s == [s[0]] + s[1..];
      InsertText(s[0], SortText(s[1..]))
  }

  /** Sorted and free of duplicates means strictly increasing. */
  lemma SortedUniqueIsStrict(s: seq<string>)
    requires SortedText(s) && NoDuplicates(s)
    ensures forall i, j :: 0 <= i < j < |s| ==> s[i] != s[j]
  {
    forall i, j | 0 <= i < j < |s| ensures s[i] != s[j] {
      assert s == s[..i] + [s[i]] + s[i + 1..j] + [s[j]] + s[j + 1..];
      assert multiset(s)[s[i]] >= 1 + (if s[j] == s[i] then 1 else 0);
    }
  }

  /** `sorted(values.unique())`: the distinct values in text order. */
  function SortedDistinct(s: seq<string>): (r: seq<string>)
    ensures SortedText(r) && NoDuplicates(r)
    ensures forall x :: x in r <==> x in s
    ensures forall i, j :: 0 <= i < j < |r| ==> r[i] != r[j]
  {
    var u := Unique(s);
    var r := SortText(u);
    assert forall x :: x in r <==> x in multiset(u);
    SortedUniqueIsStrict(r);
    r
  }

  // ---------------------------------------------------------------------------
  // identifier lists: digit strings first
  // ---------------------------------------------------------------------------

  /** The identifiers that `isnumeric()` accepts, in their original order. */
  function NumericIds(ids: seq<string>): (r: seq<string>)
    ensures forall i :: 0 <= i < |r| ==> IsNumeric(r[i])
  {
    if ids == [] then []
    else (if IsNumeric(ids[0]) then [ids[0]] else []) + NumericIds(ids[1..])
  }

  /** The identifiers that `isnumeric()` rejects, in their original order. */
  function TextIds(ids: seq<string>): (r: seq<string>)
    ensures forall i :: 0 <= i < |r| ==> !IsNumeric(r[i])
  {
    if ids == [] then []
    else (if IsNumeric(ids[0]) then [] else [ids[0]]) + TextIds(ids[1..])
  }

  lemma {:induction false} SplitIdsIsPermutation(ids: seq<string>)
    ensures multiset(NumericIds(ids)) + multiset(TextIds(ids)) == multiset(ids)
  {
    if ids != [] {
      SplitIdsIsPermutation(ids[1..]);
      assert ids == [ids[0]] + ids[1..];
    }
  }

  function IdValue(id: string): int { NumValue(id) }

  lemma NumbersThenTexts(nums: seq<string>, texts: seq<string>)
    requires forall i :: 0 <= i < |nums| ==> IsNumeric(nums[i])
    requires forall i :: 0 <= i < |texts| ==> !IsNumeric(texts[i])
    requires SortedByKey(nums, IdValue) && SortedText(texts)
    ensures forall i :: 0 <= i < |nums + texts| ==> (IsNumeric((nums + texts)[i]) <==> i < |nums|)
    ensures forall i, j :: 0 <= i < j < |nums| ==> NumValue((nums + texts)[i]) <= NumValue((nums + texts)[j])
    ensures forall i, j :: |nums| <= i < j < |nums + texts| ==> LexLe((nums + texts)[i], (nums + texts)[j])
  {
    var r := nums + texts;
    assert forall i :: 0 <= i < |nums| ==> r[i] == nums[i];
    assert forall i :: |nums| <= i < |r| ==> r[i] == texts[i - |nums|];
  }

  lemma SameElements(a: seq<string>, b: seq<string>)
    requires multiset(a) == multiset(b)
    ensures |a| == |b|
    ensures forall i :: 0 <= i < |a| ==> a[i] in b
  {
    assert |multiset(a)| == |multiset(b)|;
    forall i | 0 <= i < |a| ensures a[i] in b {
      assert a[i] in multiset(a);
    }
  }

  /**
    `sorted(numeric, key=int) + sorted(text)`: every digit-only identifier comes
    first, in non-decreasing integer order, then every other one in text order;
    nothing is added or lost.
  */
  function OrderIds(ids: seq<string>): (r: seq<string>)
    ensures multiset(r) == multiset(ids)
    ensures |NumericIds(ids)| <= |r| == |ids|
    ensures forall i :: 0 <= i < |r| ==> (IsNumeric(r[i]) <==> i < |NumericIds(ids)|)
    ensures forall i, j :: 0 <= i < j < |NumericIds(ids)| ==> NumValue(r[i]) <= NumValue(r[j])
    ensures forall i, j :: |NumericIds(ids)| <= i < j < |r| ==> LexLe(r[i], r[j])
  {
    var nums := SortByKey(NumericIds(ids), IdValue);
    var texts := SortText(TextIds(ids));
    SplitIdsIsPermutation(ids);
    SameElements(nums, NumericIds(ids));
    SameElements(texts, TextIds(ids));
    NumbersThenTexts(nums, texts);
    assert |multiset(nums + texts)| == |multiset(ids)|;
    nums + texts
  }
}
