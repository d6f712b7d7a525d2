/** Stable sorting as the modelled code uses it: Python's `sorted(..., reverse=True)` by a
    numeric key, SQL `ORDER BY key DESC`, and SQL `ORDER BY text` (ascending, BINARY collation). */
module Sorting {
  import opened Strings

  /** Non-increasing by `key`. */
  predicate NonIncreasing<T>(s: seq<T>, key: T -> real)
  {
    forall i, j :: 0 <= i < j < |s| ==> key(s[i]) >= key(s[j])
  }

  /** Puts `x` in front of the first element whose key does not exceed `x`'s, so that `x`
      stays ahead of later elements with an equal key (stability). */
  function InsertDesc<T>(x: T, s: seq<T>, key: T -> real): (r: seq<T>)
    ensures multiset(r) == multiset(s) + multiset{x}
    ensures |r| == |s| + 1
  {
    if s == [] || key(x) >= key(s[0]) then [x] + s
    else
      assert s == [s[0]] + s[1..];
      [s[0]] + InsertDesc(x, s[1..], key)
  }

  lemma {:induction false} InsertDescSorted<T>(x: T, s: seq<T>, key: T -> real)
    requires NonIncreasing(s, key)
    ensures NonIncreasing(InsertDesc(x, s, key), key)
  {
    if s == [] || key(x) >= key(s[0]) {
    } else {
      var t := InsertDesc(x, s[1..], key);
      InsertDescSorted(x, s[1..], key);
      forall j | 0 <= j < |t| ensures key(s[0]) >= key(t[j]) {
        assert t[j] in multiset(t);
        assert t[j] == x || t[j] in multiset(s[1..]);
        if t[j] != x {
          var k :| 0 <= k < |s[1..]| && s[1..][k] == t[j];
          assert s[k + 1] == t[j];
        }
      }
    }
  }

  /** A stable sort, highest key first. */
  function SortDesc<T>(s: seq<T>, key: T -> real): (r: seq<T>)
    ensures multiset(r) == multiset(s)
    ensures |r| == |s|
  {
    if s == [] then []
    else
      assert s == [s[0]] + s[1..];
      InsertDesc(s[0], SortDesc(s[1..], key), key)
  }

  lemma {:induction false} SortDescSorted<T>(s: seq<T>, key: T -> real)
    ensures NonIncreasing(SortDesc(s, key), key)
  {
    if s != [] {
      SortDescSorted(s[1..], key);
      InsertDescSorted(s[0], SortDesc(s[1..], key), key);
    }
  }

  /** Ordered by `name`, in Python's string order. */
  predicate AscendingBy<T>(s: seq<T>, name: T -> string)
  {
    forall i, j :: 0 <= i < j < |s| ==> LexLe(name(s[i]), name(s[j]))
  }

  function InsertAsc<T>(x: T, s: seq<T>, name: T -> string): (r: seq<T>)
    ensures multiset(r) == multiset(s) + multiset{x}
    ensures |r| == |s| + 1
  {
    if s == [] || LexLe(name(x), name(s[0])) then [x] + s
    else
      assert s == [s[0]] + s[1..];
      [s[0]] + InsertAsc(x, s[1..], name)
  }

  lemma {:induction false} InsertAscSorted<T>(x: T, s: seq<T>, name: T -> string)
    requires AscendingBy(s, name)
    ensures AscendingBy(InsertAsc(x, s, name), name)
  {
    if s == [] {
    } else if LexLe(name(x), name(s[0])) {
      forall j | 0 <= j < |s| ensures LexLe(name(x), name(s[j])) {
        if j > 0 { LexLeTransitive(name(x), name(s[0]), name(s[j])); }
      }
    } else {
      var t := InsertAsc(x, s[1..], name);
      InsertAscSorted(x, s[1..], name);
      LexLeTotal(name(x), name(s[0]));
      forall j | 0 <= j < |t| ensures LexLe(name(s[0]), name(t[j])) {
        assert t[j] in multiset(t);
        assert t[j] == x || t[j] in multiset(s[1..]);
        if t[j] != x {
          var k :| 0 <= k < |s[1..]| && s[1..][k] == t[j];
          assert s[k + 1] == t[j];
        }
      }
    }
  }

  /** A stable sort by `name`, as `ORDER BY name` does. */
  function SortAsc<T>(s: seq<T>, name: T -> string): (r: seq<T>)
    ensures multiset(r) == multiset(s)
    ensures |r| == |s|
  {
    if s == [] then []
    else
      assert s == [s[0]] + s[1..];
      InsertAsc(s[0], SortAsc(s[1..], name), name)
  }

  lemma {:induction false} SortAscSorted<T>(s: seq<T>, name: T -> string)
    ensures AscendingBy(SortAsc(s, name), name)
  {
    if s != [] {
      SortAscSorted(s[1..], name);
      InsertAscSorted(s[0], SortAsc(s[1..], name), name);
    }
  }
}
