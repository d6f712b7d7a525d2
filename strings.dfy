/** The few operations on Python `str` that the modelled code relies on. */
module Strings {

  /** `sub` occurs in `s` at position `i`. */
  predicate OccursAt(s: string, sub: string, i: int)
  {
    0 <= i && i + |sub| <= |s| && s[i..i + |sub|] == sub
  }

  /** `s.find(sub, i)`: the lowest position at or after `i` where `sub` occurs, or -1. */
  function FindFrom(s: string, sub: string, i: nat): (r: int)
    ensures r == -1 || (i <= r && OccursAt(s, sub, r))
    ensures r == -1 ==> forall j :: i <= j ==> !OccursAt(s, sub, j)
    ensures r >= 0 ==> forall j :: i <= j < r ==> !OccursAt(s, sub, j)
    decreases |s| - i
  {
    if i + |sub| > |s| then -1
    else if OccursAt(s, sub, i) then i
    else FindFrom(s, sub, i + 1)
  }

  /** `s.find(sub)`. */
  function Find(s: string, sub: string): int
  {
    FindFrom(s, sub, 0)
  }

  /** Python's `sub in s`. */
  predicate Contains(s: string, sub: string)
  {
    Find(s, sub) >= 0
  }

  lemma ContainsIff(s: string, sub: string)
    ensures Contains(s, sub) <==> exists j :: OccursAt(s, sub, j)
  {
    if !Contains(s, sub) {
      forall j ensures !OccursAt(s, sub, j) {
        if j >= 0 { assert !OccursAt(s, sub, j); }
      }
    }
  }

  /** Scans candidate positions `j`, `j - 1`, ... down to `lo` for an occurrence of `sub`. */
  function RFindDown(s: string, sub: string, lo: nat, j: int): (r: int)
    ensures r == -1 || (lo <= r <= j && OccursAt(s, sub, r))
    ensures forall k :: r < k <= j && lo <= k ==> !OccursAt(s, sub, k)
    decreases j - lo + 1
  {
    if j < lo then -1
    else if OccursAt(s, sub, j) then j
    else RFindDown(s, sub, lo, j - 1)
  }

  /** `s.rfind(sub, lo, hi)`: the highest `p` with `lo <= p` and `p + |sub| <= hi` where `sub`
      occurs, or -1. */
  function RFind(s: string, sub: string, lo: nat, hi: nat): (r: int)
    requires lo <= hi <= |s|
    ensures r == -1 || (lo <= r && r + |sub| <= hi && OccursAt(s, sub, r))
    ensures forall k :: lo <= k && k + |sub| <= hi && r < k ==> !OccursAt(s, sub, k)
  {
    RFindDown(s, sub, lo, hi - |sub|)
  }

  /** ASCII lower-casing of one character. */
  function LowerChar(c: char): char
  {
    if 'A' <= c <= 'Z' then (c as int + 32) as char else c
  }

  /** `s.lower()`, restricted to ASCII letters. */
  function Lower(s: string): (r: string)
    ensures |r| == |s| && forall i :: 0 <= i < |s| ==> r[i] == LowerChar(s[i])
  {
    if s == [] then [] else [LowerChar(s[0])] + Lower(s[1..])
  }

  /** One pattern character of `LIKE` against one text character: `_` matches any character,
      any other character itself, ignoring ASCII case. */
  predicate CharMatches(c: char, pc: char)
  {
    pc == '_' || LowerChar(c) == LowerChar(pc)
  }

  /** SQLite's `s LIKE p` with no `ESCAPE` clause: `%` matches any run of characters, `_` any
      one character, and every other character itself, ignoring ASCII case. */
  predicate LikeMatch(s: string, p: string)
    decreases |s| + |p|
  {
    if p == [] then s == []
    else if p[0] == '%' then LikeMatch(s, p[1..]) || (s != [] && LikeMatch(s[1..], p))
    else s != [] && CharMatches(s[0], p[0]) && LikeMatch(s[1..], p[1..])
  }

  /** `s LIKE '%' || term || '%'`, the term spliced in unescaped, so that `%` and `_` in it
      act as wildcards. */
  predicate LikeContains(s: string, term: string)
  {
    LikeMatch(s, "%" + term + "%")
  }

  predicate NoWildcards(t: string)
  {
    forall i :: 0 <= i < |t| ==> t[i] != '%' && t[i] != '_'
  }

  /** A lone `%` matches any text. */
  lemma {:induction false} LikeAnyText(u: string)
    ensures LikeMatch(u, "%")
    decreases |u|
  {
    if u != [] {
      LikeAnyText(u[1..]);
    }
  }

  /** A pattern `t` followed by `%` matches a text whose prefix it matches character by
      character; when `t` has no wildcard, that is the only way it matches. */
  lemma {:induction false} LikePrefix(u: string, t: string)
    ensures (|t| <= |u| && forall k :: 0 <= k < |t| ==> t[k] == '%' || CharMatches(u[k], t[k])) ==>
      LikeMatch(u, t + "%")
    ensures NoWildcards(t) && LikeMatch(u, t + "%") ==>
      |t| <= |u| && forall k :: 0 <= k < |t| ==> LowerChar(u[k]) == LowerChar(t[k])
    decreases |t|
  {
    if t == [] {
      assert t + "%" == "%";
      LikeAnyText(u);
    } else {
      var p := t + "%";
      assert p[1..] == t[1..] + "%";
      if u != [] {
        LikePrefix(u[1..], t[1..]);
        if |t| <= |u| && forall k :: 0 <= k < |t| ==> t[k] == '%' || CharMatches(u[k], t[k]) {
          assert forall k :: 0 <= k < |t| - 1 ==> t[1..][k] == '%' || CharMatches(u[1..][k], t[1..][k]) by {
            forall k | 0 <= k < |t| - 1
              ensures t[1..][k] == '%' || CharMatches(u[1..][k], t[1..][k])
            {
              assert t[1..][k] == t[k + 1] && u[1..][k] == u[k + 1];
            }
          }
          if t[0] == '%' {
            // The wildcard takes the first character, then matches nothing more.
            assert LikeMatch(u[1..], p[1..]);
            assert LikeMatch(u[1..], p);
          }
        }
        if NoWildcards(t) && LikeMatch(u, p) {
          assert NoWildcards(t[1..]) by {
            forall k | 0 <= k < |t| - 1 ensures t[1..][k] != '%' && t[1..][k] != '_' {
              assert t[1..][k] == t[k + 1];
            }
          }
          assert LikeMatch(u[1..], p[1..]);
          forall k | 0 < k < |t| ensures LowerChar(u[k]) == LowerChar(t[k]) {
            assert u[1..][k - 1] == u[k] && t[1..][k - 1] == t[k];
          }
        }
      }
    }
  }

  /** A leading `%` lets the rest of the pattern match any suffix of the text. */
  lemma {:induction false} LikeSkip(s: string, q: string)
    ensures LikeMatch(s, "%" + q) <==> exists i :: 0 <= i <= |s| && LikeMatch(s[i..], q)
    decreases |s|
  {
    var p := "%" + q;
    assert p[1..] == q;
    if s == [] {
      assert s[0..] == s;
    } else {
      LikeSkip(s[1..], q);
      assert s[0..] == s;
      if exists i :: 0 <= i <= |s| && LikeMatch(s[i..], q) {
        var i :| 0 <= i <= |s| && LikeMatch(s[i..], q);
        if i > 0 {
          assert s[1..][i - 1..] == s[i..];
        }
      }
      if LikeMatch(s[1..], p) {
        var i :| 0 <= i <= |s| - 1 && LikeMatch(s[1..][i..], q);
        assert s[1..][i..] == s[i + 1..];
      }
    }
  }

  /** A text that contains the term, ignoring ASCII case, matches `%term%`. */
  lemma SubstringLike(s: string, term: string)
    requires Contains(Lower(s), Lower(term))
    ensures LikeContains(s, term)
  {
    ContainsIff(Lower(s), Lower(term));
    var j :| OccursAt(Lower(s), Lower(term), j);
    forall k | 0 <= k < |term| ensures term[k] == '%' || CharMatches(s[j..][k], term[k]) {
      assert Lower(s)[j..j + |term|][k] == Lower(term)[k];
    }
    LikePrefix(s[j..], term);
    LikeSkip(s, term + "%");
    assert "%" + term + "%" == "%" + (term + "%");
  }

  /** Without wildcards, a match of `%term%` is an occurrence of the term, ignoring ASCII case. */
  lemma LikeSubstring(s: string, term: string)
    requires NoWildcards(term) && LikeContains(s, term)
    ensures Contains(Lower(s), Lower(term))
  {
    assert "%" + term + "%" == "%" + (term + "%");
    LikeSkip(s, term + "%");
    var i :| 0 <= i <= |s| && LikeMatch(s[i..], term + "%");
    LikePrefix(s[i..], term);
    forall k | 0 <= k < |term| ensures Lower(s)[i..i + |term|][k] == Lower(term)[k] {
      assert s[i..][k] == s[i + k];
    }
    assert OccursAt(Lower(s), Lower(term), i);
    ContainsIff(Lower(s), Lower(term));
  }


  /** `LIKE '%term%'` holds whenever the text contains the term ignoring ASCII case, and for a
      term without `%` or `_` only then. */
  lemma LikeContainsIff(s: string, term: string)
    ensures Contains(Lower(s), Lower(term)) ==> LikeContains(s, term)
    ensures NoWildcards(term) ==> (LikeContains(s, term) <==> Contains(Lower(s), Lower(term)))
  {
    if Contains(Lower(s), Lower(term)) {
      SubstringLike(s, term);
    }
    if NoWildcards(term) && LikeContains(s, term) {
      LikeSubstring(s, term);
    }
  }

  /** `_` in the term is a wildcard: "get_user" finds "getXuser", which does not contain it. */
  lemma LikeUnderscoreWildcard()
    ensures LikeContains("getXuser", "get_user")
    ensures !Contains(Lower("getXuser"), Lower("get_user"))
  {
    var s, t := "getXuser", "get_user";
    assert forall k :: 0 <= k < |t| ==> t[k] == '%' || CharMatches(s[k], t[k]);
    LikePrefix(s, t);
    assert s[0..] == s;
    LikeSkip(s, t + "%");
    assert "%" + t + "%" == "%" + (t + "%");
    ContainsIff(Lower(s), Lower(t));
    assert Lower(s)[3] == 'x' && Lower(t)[3] == '_';
    assert forall j :: OccursAt(Lower(s), Lower(t), j) ==> j == 0;
    assert Lower(s)[0..8] != Lower(t) by {
      assert Lower(s)[0..8][3] != Lower(t)[3];
    }
  }

  /** Python's `<` on strings: lexicographic order of code points (SQLite's BINARY collation
      gives the same order on UTF-8 text). */
  predicate LexLess(a: string, b: string)
  {
    if a == [] then b != []
    else if b == [] then false
    else if a[0] != b[0] then a[0] < b[0]
    else LexLess(a[1..], b[1..])
  }

  predicate LexLe(a: string, b: string)
  {
    a == b || LexLess(a, b)
  }

  lemma {:induction false} LexLessIrreflexive(a: string)
    ensures !LexLess(a, a)
  {
    if a != [] { LexLessIrreflexive(a[1..]); }
  }

  lemma {:induction false} LexLessTransitive(a: string, b: string, c: string)
    requires LexLess(a, b) && LexLess(b, c)
    ensures LexLess(a, c)
  {
    if a != [] && b != [] && c != [] && a[0] == b[0] && b[0] == c[0] {
      LexLessTransitive(a[1..], b[1..], c[1..]);
    }
  }

  lemma {:induction false} LexLessTotal(a: string, b: string)
    ensures a == b || LexLess(a, b) || LexLess(b, a)
  {
    if a != [] && b != [] && a[0] == b[0] {
      LexLessTotal(a[1..], b[1..]);
      if a[1..] == b[1..] { assert a == [a[0]] + a[1..] && b == [b[0]] + b[1..]; }
    }
  }

  lemma LexLeTransitive(a: string, b: string, c: string)
    requires LexLe(a, b) && LexLe(b, c)
    ensures LexLe(a, c)
  {
    if a != b && b != c { LexLessTransitive(a, b, c); }
  }

  lemma LexLeTotal(a: string, b: string)
    ensures LexLe(a, b) || LexLe(b, a)
  {
    LexLessTotal(a, b);
  }

  lemma LexLeAntisymmetric(a: string, b: string)
    requires LexLe(a, b) && LexLe(b, a)
    ensures a == b
  {
    if a != b {
      LexLessTransitive(a, b, a);
      LexLessIrreflexive(a);
    }
  }

  /** Python's `s.endswith(suffix)`. */
  predicate EndsWith(s: string, suffix: string)
  {
    |suffix| <= |s| && s[|s| - |suffix|..] == suffix
  }

  /** `s.rstrip(c)` for a single character `c`: drops every trailing `c`. */
  function RStrip(s: string, c: char): (r: string)
    ensures |r| <= |s| && r == s[..|r|]
    ensures r == [] || r[|r| - 1] != c
    ensures forall i :: |r| <= i < |s| ==> s[i] == c
  {
    if s == [] || s[|s| - 1] != c then s else RStrip(s[..|s| - 1], c)
  }

  /** `s.replace(a, b)` for single characters. */
  function ReplaceChar(s: string, a: char, b: char): (r: string)
    ensures |r| == |s|
    ensures forall i :: 0 <= i < |s| ==> r[i] == (if s[i] == a then b else s[i])
  {
    if s == [] then [] else [if s[0] == a then b else s[0]] + ReplaceChar(s[1..], a, b)
  }

  /** `sep.join(parts)`. */
  function Join(parts: seq<string>, sep: string): string
  {
    if parts == [] then ""
    else if |parts| == 1 then parts[0]
    else parts[0] + sep + Join(parts[1..], sep)
  }

  /** Decimal rendering of a natural number, as `str(n)`. */
  function NatToString(n: nat): (r: string)
    ensures |r| >= 1
    decreases n
  {
    var d := ['0', '1', '2', '3', '4', '5', '6', '7', '8', '9'];
    if n < 10 then [d[n]] else NatToString(n / 10) + [d[n % 10]]
  }

  /** `str(i)` for any integer. */
  function IntToString(i: int): string
  {
    if i < 0 then "-" + NatToString(-i) else NatToString(i)
  }

  /** A slice bound as Python reads it: a negative bound counts from the end, and the result
      is clamped to `[0, len]`. */
  function SliceBound(s: string, b: int): (r: nat)
    ensures r <= |s|
    ensures 0 <= b <= |s| ==> r == b
    ensures -|s| <= b < 0 ==> r == b + |s|
    ensures b < -|s| ==> r == 0
    ensures b > |s| ==> r == |s|
  {
    if b < 0 then (if b + |s| < 0 then 0 else b + |s|) else if b > |s| then |s| else b
  }

  /** `s[a:b]` for any integers `a` and `b`. */
  function Slice(s: string, a: int, b: int): (r: string)
    ensures SliceBound(s, a) < SliceBound(s, b) ==> r == s[SliceBound(s, a)..SliceBound(s, b)]
    ensures SliceBound(s, a) >= SliceBound(s, b) ==> r == []
  {
    var lo := SliceBound(s, a);
    var hi := SliceBound(s, b);
    if lo < hi then s[lo..hi] else []
  }

  /** The characters `str.strip()` removes, restricted to ASCII. */
  predicate IsSpace(c: char)
  {
    c == ' ' || c == '\t' || c == '\n' || c == '\r' || c == '\U{0B}' || c == '\U{0C}'
  }

  function LStrip(s: string): string
  {
    if |s| > 0 && IsSpace(s[0]) then LStrip(s[1..]) else s
  }

  function RStripSpace(s: string): string
  {
    if |s| > 0 && IsSpace(s[|s| - 1]) then RStripSpace(s[..|s| - 1]) else s
  }

  /** `s.strip()`. */
  function Strip(s: string): string
  {
    RStripSpace(LStrip(s))
  }

  /** An occurrence of `m` that neither starts nor ends with white space survives the left strip. */
  lemma {:induction false} LStripKeeps(s: string, m: string, k: int) returns (k': int)
    requires OccursAt(s, m, k) && |m| > 0 && !IsSpace(m[0])
    ensures OccursAt(LStrip(s), m, k')
    decreases |s|
  {
    if |s| > 0 && IsSpace(s[0]) {
      assert s[k] == m[0];
      assert s[1..][k - 1..k - 1 + |m|] == s[k..k + |m|];
      k' := LStripKeeps(s[1..], m, k - 1);
    } else {
      k' := k;
    }
  }

  lemma {:induction false} RStripKeeps(s: string, m: string, k: int)
    requires OccursAt(s, m, k) && |m| > 0 && !IsSpace(m[|m| - 1])
    ensures OccursAt(RStripSpace(s), m, k)
    decreases |s|
  {
    if |s| > 0 && IsSpace(s[|s| - 1]) {
      assert s[k + |m| - 1] == m[|m| - 1];
      assert s[..|s| - 1][k..k + |m|] == s[k..k + |m|];
      RStripKeeps(s[..|s| - 1], m, k);
    }
  }

  /** `strip()` never removes an occurrence whose first and last characters are not white space. */
  lemma StripKeeps(s: string, m: string, k: int)
    requires OccursAt(s, m, k) && |m| > 0 && !IsSpace(m[0]) && !IsSpace(m[|m| - 1])
    ensures Contains(Strip(s), m)
  {
    var k' := LStripKeeps(s, m, k);
    RStripKeeps(LStrip(s), m, k');
    ContainsIff(Strip(s), m);
  }
}
