/** Python list and dict idioms used by the modelled code, written once. */
module Collections {
  import opened Wrappers

  function Min(a: int, b: int): int { if a <= b then a else b }
  function Max(a: int, b: int): int { if a >= b then a else b }

  /** Python's `s[:n]`: a negative `n` drops elements from the end. */
  function PyTake<T>(s: seq<T>, n: int): (r: seq<T>)
    ensures |r| <= |s| && r == s[..|r|]
    ensures |r| == if n >= 0 then Min(n, |s|) else Max(0, |s| + n)
  {
    if n >= 0 then (if n <= |s| then s[..n] else s)
    else if |s| + n >= 0 then s[..|s| + n] else []
  }

  /** SQL's `LIMIT n`: a negative `n` means no limit. */
  function SqlLimit<T>(s: seq<T>, n: int): (r: seq<T>)
    ensures |r| <= |s| && r == s[..|r|]
    ensures |r| == if n < 0 then |s| else Min(n, |s|)
  {
    if n < 0 || n >= |s| then s else s[..n]
  }

  /** `[f(x) for x in s]`. */
  function Map<T, U>(f: T -> U, s: seq<T>): (r: seq<U>)
    ensures |r| == |s| && forall i :: 0 <= i < |s| ==> r[i] == f(s[i])
  {
    seq(|s|, i requires 0 <= i < |s| => f(s[i]))
  }

  /** Mapping a list one element longer appends that element's image. */
  lemma MapSnoc<T, U>(f: T -> U, s: seq<T>, i: nat)
    requires i < |s|
    ensures Map(f, s[..i + 1]) == Map(f, s[..i]) + [f(s[i])]
  {
    var l, r := Map(f, s[..i + 1]), Map(f, s[..i]) + [f(s[i])];
    forall j | 0 <= j < |l| ensures l[j] == r[j] {
      assert s[..i + 1][j] == s[j];
    }
  }

  /** The elements of `s` that satisfy `p`, in order (a list comprehension with a filter). */
  function Filter<T>(s: seq<T>, p: T -> bool): (r: seq<T>)
    ensures |r| <= |s|
    ensures forall i :: 0 <= i < |r| ==> r[i] in s && p(r[i])
    ensures forall i :: 0 <= i < |s| && p(s[i]) ==> s[i] in r
    decreases |s|
  {
    if s == [] then []
    else if p(s[0]) then [s[0]] + Filter(s[1..], p)
    else Filter(s[1..], p)
  }

  /** `R` holds between every element and each later one. */
  predicate Pairwise<T>(s: seq<T>, R: (T, T) -> bool)
  {
    forall i, j :: 0 <= i < j < |s| ==> R(s[i], s[j])
  }

  lemma PairwiseCons<T>(x: T, s: seq<T>, R: (T, T) -> bool)
    requires Pairwise(s, R) && forall k :: 0 <= k < |s| ==> R(x, s[k])
    ensures Pairwise([x] + s, R)
  {
    var r := [x] + s;
    forall i, j | 0 <= i < j < |r| ensures R(r[i], r[j]) {
      assert r[j] == s[j - 1];
      if i > 0 { assert r[i] == s[i - 1]; }
    }
  }

  lemma PairwiseAppend<T>(s: seq<T>, x: T, R: (T, T) -> bool)
    requires Pairwise(s, R) && forall k :: 0 <= k < |s| ==> R(s[k], x)
    ensures Pairwise(s + [x], R)
  {
    var r := s + [x];
    forall i, j | 0 <= i < j < |r| ensures R(r[i], r[j]) {
      assert r[i] == s[i];
      if j < |s| { assert r[j] == s[j]; }
    }
  }

  lemma PairwiseTail<T>(s: seq<T>, R: (T, T) -> bool)
    requires Pairwise(s, R) && s != []
    ensures Pairwise(s[1..], R)
    ensures forall k :: 1 <= k < |s| ==> R(s[0], s[k])
  {
    var t := s[1..];
    forall i, j | 0 <= i < j < |t| ensures R(t[i], t[j]) {
      assert t[i] == s[i + 1] && t[j] == s[j + 1];
    }
  }

  /** Filtering keeps the order of what it keeps, so pairwise facts survive. */
  lemma {:induction false} FilterPairwise<T>(s: seq<T>, p: T -> bool, R: (T, T) -> bool)
    requires Pairwise(s, R)
    ensures Pairwise(Filter(s, p), R)
    decreases |s|
  {
    if s != [] {
      var tail := s[1..];
      PairwiseTail(s, R);
      FilterPairwise(tail, p, R);
      var ft := Filter(tail, p);
      if p(s[0]) {
        forall k | 0 <= k < |ft| ensures R(s[0], ft[k]) {
          var m :| 0 <= m < |tail| && tail[m] == ft[k];
          assert s[m + 1] == ft[k];
        }
        PairwiseCons(s[0], ft, R);
      }
    }
  }

  /** Filtering a list with one more element at the end. */
  lemma {:induction false} FilterSnoc<T>(s: seq<T>, x: T, p: T -> bool)
    ensures Filter(s + [x], p) == Filter(s, p) + (if p(x) then [x] else [])
    decreases |s|
  {
    if s == [] {
      assert [x][1..] == [];
    } else {
      assert (s + [x])[1..] == s[1..] + [x];
      FilterSnoc(s[1..], x, p);
    }
  }

  /** `sum(1 for x in s if p(x))`. */
  function Count<T>(s: seq<T>, p: T -> bool): (n: nat)
    ensures n <= |s|
    ensures n == |Filter(s, p)|
  {
    if s == [] then 0 else (if p(s[0]) then 1 else 0) + Count(s[1..], p)
  }

  /** A Python dict: an association list kept in insertion order. */
  type Dict<K, V> = seq<(K, V)>

  predicate UniqueKeys<K(==), V>(d: Dict<K, V>)
  {
    forall i, j :: 0 <= i < j < |d| ==> d[i].0 != d[j].0
  }

  predicate HasKey<K(==), V>(d: Dict<K, V>, k: K)
  {
    exists i :: 0 <= i < |d| && d[i].0 == k
  }

  /** The position of key `k` in `d` (its first, when keys repeat), or -1. */
  function IndexOf<K(==), V>(d: Dict<K, V>, k: K): (i: int)
    ensures i == -1 <==> !HasKey(d, k)
    ensures i != -1 ==> 0 <= i < |d| && d[i].0 == k && forall j :: 0 <= j < i ==> d[j].0 != k
  {
    if d == [] then -1
    else if d[0].0 == k then 0
    else
      var i := IndexOf(d[1..], k);
      assert forall j :: 1 <= j < |d| ==> d[1..][j - 1] == d[j];
      if i == -1 then -1 else i + 1
  }

  /** `d.get(k)`. */
  function Get<K(==), V>(d: Dict<K, V>, k: K): (r: Option<V>)
    ensures r.None? <==> !HasKey(d, k)
    ensures r.Some? ==> exists i :: 0 <= i < |d| && d[i] == (k, r.value)
  {
    var i := IndexOf(d, k);
    if i == -1 then None else Some(d[i].1)
  }

  /** With unique keys, `Get` returns the value stored with the key wherever it is. */
  lemma GetAt<K, V>(d: Dict<K, V>, i: nat)
    requires UniqueKeys(d) && i < |d|
    ensures Get(d, d[i].0) == Some(d[i].1)
  {
  }

  /** `d[k] = v`: an existing key keeps its position, a new key goes last. */
  function Put<K(==), V>(d: Dict<K, V>, k: K, v: V): (r: Dict<K, V>)
    ensures HasKey(d, k) ==> |r| == |d|
    ensures !HasKey(d, k) ==> r == d + [(k, v)]
    ensures forall i :: 0 <= i < |d| ==> r[i].0 == d[i].0
    ensures forall i :: 0 <= i < |d| && d[i].0 != k ==> r[i] == d[i]
  {
    var i := IndexOf(d, k);
    if i == -1 then d + [(k, v)] else d[i := (k, v)]
  }

  /** Assignment keeps keys unique, stores `v` under `k` and leaves every other key's value. */
  lemma PutGet<K, V>(d: Dict<K, V>, k: K, v: V, k': K)
    requires UniqueKeys(d)
    ensures UniqueKeys(Put(d, k, v))
    ensures Get(Put(d, k, v), k) == Some(v)
    ensures k' != k ==> Get(Put(d, k, v), k') == Get(d, k')
  {
    var r := Put(d, k, v);
    if HasKey(d, k) {
      GetAt(r, IndexOf(d, k));
    } else {
      GetAt(r, |d|);
    }
    if k' != k && HasKey(d, k') {
      var j := IndexOf(d, k');
      GetAt(r, j);
    }
  }

  /** `del d[k]`, or nothing when `k` is absent. */
  function Remove<K(==), V>(d: Dict<K, V>, k: K): (r: Dict<K, V>)
    ensures !HasKey(d, k) ==> r == d
    ensures HasKey(d, k) ==> |r| == |d| - 1
  {
    var i := IndexOf(d, k);
    if i == -1 then d else d[..i] + d[i + 1..]
  }

  /** The entries after removal, by position. */
  lemma RemoveAt<K, V>(d: Dict<K, V>, k: K)
    requires HasKey(d, k)
    ensures var i := IndexOf(d, k); var r := Remove(d, k);
      forall j :: 0 <= j < |r| ==> r[j] == (if j < i then d[j] else d[j + 1])
  {
  }

  lemma RemoveUnique<K, V>(d: Dict<K, V>, k: K)
    requires UniqueKeys(d)
    ensures UniqueKeys(Remove(d, k)) && !HasKey(Remove(d, k), k)
  {
    if HasKey(d, k) {
      var i := IndexOf(d, k);
      var r := Remove(d, k);
      RemoveAt(d, k);
      forall a, b | 0 <= a < b < |r| ensures r[a].0 != r[b].0 {
        var a' := if a < i then a else a + 1;
        var b' := if b < i then b else b + 1;
        assert r[a] == d[a'] && r[b] == d[b'] && a' < b';
      }
      forall j | 0 <= j < |r| ensures r[j].0 != k {
        var j' := if j < i then j else j + 1;
        assert r[j] == d[j'] && j' != i;
      }
    }
  }

  lemma RemoveOthers<K, V>(d: Dict<K, V>, k: K, k': K)
    requires UniqueKeys(d) && k' != k && HasKey(d, k)
    ensures Get(Remove(d, k), k') == Get(d, k')
  {
    var i := IndexOf(d, k);
    var r := Remove(d, k);
    RemoveAt(d, k);
    RemoveUnique(d, k);
    if HasKey(d, k') {
      var j := IndexOf(d, k');
      var j' := if j < i then j else j - 1;
      assert r[j'] == d[j];
      GetAt(r, j');
      GetAt(d, j);
    } else {
      forall m | 0 <= m < |r| ensures r[m].0 != k' {
        assert r[m] == d[if m < i then m else m + 1];
      }
    }
  }

  /** Removal keeps keys unique, drops `k` and leaves every other key's value. */
  lemma RemoveGet<K, V>(d: Dict<K, V>, k: K, k': K)
    requires UniqueKeys(d)
    ensures UniqueKeys(Remove(d, k))
    ensures !HasKey(Remove(d, k), k)
    ensures k' != k ==> Get(Remove(d, k), k') == Get(d, k')
  {
    RemoveUnique(d, k);
    if k' != k && HasKey(d, k) {
      RemoveOthers(d, k, k');
    }
  }
}
