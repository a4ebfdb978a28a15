/**
 * Shared building blocks of the dashboard model: option/result wrappers, the
 * JavaScript string operations the services rely on (lower-casing, `includes`,
 * `trim`, `split`, `join`), `Math.round` of an integer ratio, filtering, summing
 * and the stable descending sort that `Array.prototype.sort` performs with a
 * `(a, b) => key(b) - key(a)` comparator.
 */
module Common {

  datatype Option<+T> = None | Some(value: T)

  datatype Result<+T, +E> = Ok(value: T) | Err(error: E)

  // ---------------------------------------------------------------------------
  // Strings
  // ---------------------------------------------------------------------------

  /** `toLowerCase` on one character: ASCII and the Latin-1 upper-case letters. */
  function LowerChar(c: char): (r: char)
    ensures 'A' <= c <= 'Z' ==> r as int == c as int + 32
    ensures !('A' <= c <= 'Z') && !('À' <= c <= 'Þ') ==> r == c
  {
    if 'A' <= c <= 'Z' then (c as int + 32) as char
    else if ('À' <= c <= 'Ö') || ('Ø' <= c <= 'Þ') then (c as int + 32) as char
    else c
  }

  /** `String.prototype.toLowerCase`, character by character. */
  function Lower(s: string): (r: string)
    ensures |r| == |s|
    ensures forall i :: 0 <= i < |s| ==> r[i] == LowerChar(s[i])
  {
    if s == [] then [] else [LowerChar(s[0])] + Lower(s[1..])
  }

  /** A character-wise description of the lower-cased string. */
  lemma LowerIs(s: string, t: string)
    requires |s| == |t| && forall i :: 0 <= i < |s| ==> t[i] == LowerChar(s[i])
    ensures Lower(s) == t
  {
  }

  predicate IsPrefix(p: string, s: string) {
    |p| <= |s| && s[..|p|] == p
  }

  /** `s.includes(t)`: `t` occurs in `s` at some position. */
  predicate Contains(s: string, t: string)
    decreases |s|
  {
    IsPrefix(t, s) || (|s| > 0 && Contains(s[1..], t))
  }

  /** Every string contains the empty string and itself. */
  lemma {:induction false} ContainsSelf(s: string)
    ensures Contains(s, s) && Contains(s, "")
  {
  }

  /** An occurrence of `t` in `s` gives every character of `t` a place in `s`. */
  lemma {:induction false} ContainsHasChars(s: string, t: string, j: nat)
    requires Contains(s, t) && j < |t|
    ensures t[j] in s
    decreases |s|
  {
    if IsPrefix(t, s) {
      assert s[j] == t[j];
    } else {
      ContainsHasChars(s[1..], t, j);
      assert t[j] in s[1..];
    }
  }

  /** So a string lacking one character of `t` does not contain `t`. */
  lemma LacksChar(s: string, t: string, j: nat)
    requires j < |t| && t[j] !in s
    ensures !Contains(s, t)
  {
    if Contains(s, t) {
      ContainsHasChars(s, t, j);
    }
  }

  /** `s` has no occurrence of the character `c`. */
  predicate NoChar(s: string, c: char) {
    forall i :: 0 <= i < |s| ==> s[i] != c
  }

  /** A string lacking a character of `t` does not contain `t`. */
  lemma Lacks(s: string, t: string, c: char)
    requires c in t && NoChar(s, c)
    ensures !Contains(s, t)
  {
    var j :| 0 <= j < |t| && t[j] == c;
    assert c !in s;
    LacksChar(s, t, j);
  }

  /** Every keyword of `ts` holds a character `s` lacks, so `s` contains none of them. */
  lemma LacksAll(s: string, ts: seq<string>, c: char)
    requires NoChar(s, c) && forall k :: 0 <= k < |ts| ==> c in ts[k]
    ensures forall k :: 0 <= k < |ts| ==> !Contains(s, ts[k])
  {
    forall k | 0 <= k < |ts| ensures !Contains(s, ts[k]) {
      var j :| 0 <= j < |ts[k]| && ts[k][j] == c;
      assert c !in s;
      LacksChar(s, ts[k], j);
    }
  }

  /** `s` never has `a` immediately followed by `b`. */
  predicate NoPair(s: string, a: char, b: char) {
    forall i :: 0 <= i < |s| - 1 ==> !(s[i] == a && s[i + 1] == b)
  }

  lemma {:induction false} ContainsHasPair(s: string, t: string, j: nat)
    requires Contains(s, t) && j + 1 < |t|
    ensures !NoPair(s, t[j], t[j + 1])
    decreases |s|
  {
    if IsPrefix(t, s) {
      assert s[j] == t[j] && s[j + 1] == t[j + 1];
    } else {
      ContainsHasPair(s[1..], t, j);
      var i :| 0 <= i < |s[1..]| - 1 && s[1..][i] == t[j] && s[1..][i + 1] == t[j + 1];
      assert s[i + 1] == t[j] && s[i + 2] == t[j + 1];
    }
  }

  /** A string lacking two adjacent characters of `t` does not contain `t`. */
  lemma LacksPair(s: string, t: string, j: nat)
    requires j + 1 < |t| && NoPair(s, t[j], t[j + 1])
    ensures !Contains(s, t)
  {
    if Contains(s, t) {
      ContainsHasPair(s, t, j);
    }
  }

  /** An occurrence in a suffix is an occurrence in the whole string. */
  lemma {:induction false} ContainsInSuffix(s: string, k: nat, t: string)
    requires k <= |s| && Contains(s[k..], t)
    ensures Contains(s, t)
    decreases k
  {
    if k > 0 {
      assert s[1..][k - 1..] == s[k..];
      ContainsInSuffix(s[1..], k - 1, t);
    }
  }

  /** An occurrence at a known position. */
  lemma ContainsAt(s: string, k: nat, t: string)
    requires k + |t| <= |s| && s[k..k + |t|] == t
    ensures Contains(s, t)
  {
    assert IsPrefix(t, s[k..]);
    ContainsInSuffix(s, k, t);
  }

  /**
   * The characters `String.prototype.trim` removes: the ECMAScript WhiteSpace
   * (tab, vertical tab, form feed, space, no-break space, the byte order mark
   * and the Unicode space separators) and LineTerminator characters.
   */
  const Spaces: set<char> := {
    '\t', '\n', '\U{0B}', '\U{0C}', '\r', ' ', '\U{A0}', '\U{1680}',
    '\U{2000}', '\U{2001}', '\U{2002}', '\U{2003}', '\U{2004}', '\U{2005}',
    '\U{2006}', '\U{2007}', '\U{2008}', '\U{2009}', '\U{200A}',
    '\U{2028}', '\U{2029}', '\U{202F}', '\U{205F}', '\U{3000}', '\U{FEFF}'}

  predicate IsSpace(c: char) {
    c in Spaces
  }

  /** The first position from `i` on that is not white space (`|s|` when none is). */
  function SkipSpaces(s: string, i: nat): (a: nat)
    requires i <= |s|
    ensures i <= a <= |s|
    ensures forall k :: i <= k < a ==> IsSpace(s[k])
    ensures a == |s| || !IsSpace(s[a])
    decreases |s| - i
  {
    if i < |s| && IsSpace(s[i]) then SkipSpaces(s, i + 1) else i
  }

  /** The end of `s[lo..e]` once the white space it ends with is dropped. */
  function BackSpaces(s: string, lo: nat, e: nat): (m: nat)
    requires lo <= e <= |s|
    ensures lo <= m <= e
    ensures forall k :: m <= k < e ==> IsSpace(s[k])
    ensures m == lo || !IsSpace(s[m - 1])
  {
    if lo < e && IsSpace(s[e - 1]) then BackSpaces(s, lo, e - 1) else e
  }

  /** `r` is the infix of `s` at `i`, with only white space before and after it. */
  predicate InfixBetweenSpaces(s: string, r: string, i: int) {
    0 <= i <= |s| - |r| && r == s[i..i + |r|]
    && (forall k :: 0 <= k < i ==> IsSpace(s[k]))
    && (forall k :: i + |r| <= k < |s| ==> IsSpace(s[k]))
  }

  /**
   * `String.prototype.trim`: the infix of `s` left when the white space at both
   * ends is removed; it neither starts nor ends with white space.
   */
  function Trim(s: string): (r: string)
    ensures |r| <= |s|
    ensures exists i :: InfixBetweenSpaces(s, r, i)
    ensures r == [] || (!IsSpace(r[0]) && !IsSpace(r[|r| - 1]))
  {
    var a := SkipSpaces(s, 0);
    var e := BackSpaces(s, a, |s|);
    TrimCuts(s, a, e);
    s[a..e]
  }

  /** Cutting at the first and after the last non-white-space character. */
  lemma TrimCuts(s: string, a: nat, e: nat)
    requires a == SkipSpaces(s, 0) && e == BackSpaces(s, a, |s|)
    ensures InfixBetweenSpaces(s, s[a..e], a)
    ensures a == e || (!IsSpace(s[a..e][0]) && !IsSpace(s[a..e][e - a - 1]))
  {
    var r := s[a..e];
    assert |r| == e - a;
    if a < e {
      assert r[0] == s[a];
      assert r[e - a - 1] == s[e - 1];
    }
  }

  /** A text that neither starts nor ends with white space is its own trim. */
  lemma TrimUnpadded(s: string)
    requires s == [] || (!IsSpace(s[0]) && !IsSpace(s[|s| - 1]))
    ensures Trim(s) == s
  {
    assert s[0..] == s;
  }

  /** A text of white space alone trims to nothing. */
  lemma TrimBlank(s: string)
    requires forall i :: 0 <= i < |s| ==> IsSpace(s[i])
    ensures Trim(s) == []
  {
  }

  /** `s.split(c)` for a one-character separator: the maximal runs between separators. */
  function Split(s: string, c: char): (parts: seq<string>)
    ensures |parts| >= 1
    ensures forall i :: 0 <= i < |parts| ==> c !in parts[i]
    decreases |s|
  {
    if s == [] then [[]]
    else
      var rest := Split(s[1..], c);
      if s[0] == c then [[]] + rest
      else [[s[0]] + rest[0]] + rest[1..]
  }

  /** `parts.join(c)`. */
  function Join(parts: seq<string>, c: char): string {
    if |parts| == 0 then []
    else if |parts| == 1 then parts[0]
    else parts[0] + [c] + Join(parts[1..], c)
  }

  /** Splitting and re-joining with the same separator gives the string back. */
  lemma {:induction false} JoinSplit(s: string, c: char)
    ensures Join(Split(s, c), c) == s
    decreases |s|
  {
    if s != [] {
      var rest := Split(s[1..], c);
      JoinSplit(s[1..], c);
      if s[0] == c {
        assert Split(s, c) == [[]] + rest;
        assert Join(Split(s, c), c) == [] + [c] + Join(rest, c);
      } else {
        var parts := Split(s, c);
        assert parts == [[s[0]] + rest[0]] + rest[1..];
        if |rest| == 1 {
          assert Join(parts, c) == [s[0]] + rest[0];
        } else {
          assert parts[1..] == rest[1..];
          assert Join(rest, c) == rest[0] + [c] + Join(rest[1..], c);
          assert Join(parts, c) == ([s[0]] + rest[0]) + [c] + Join(rest[1..], c);
        }
      }
    }
  }

  /** The first piece of a split is everything before the first separator. */
  lemma {:induction false} SplitFirst(s: string, c: char)
    ensures c !in s ==> Split(s, c) == [s]
    ensures c in s ==> |Split(s, c)| >= 2 && s == Split(s, c)[0] + [c] + Join(Split(s, c)[1..], c)
    decreases |s|
  {
    if s != [] {
      SplitFirst(s[1..], c);
      var rest := Split(s[1..], c);
      if s[0] == c {
        JoinSplit(s[1..], c);
        assert Split(s, c)[1..] == rest;
      } else if c in s[1..] {
        var parts := Split(s, c);
        assert parts[1..] == rest[1..];
        assert s == [s[0]] + s[1..];
      } else {
        assert rest == [s[1..]];
        assert s == [s[0]] + s[1..];
      }
    }
  }

  predicate IsDigit(c: char) {
    '0' <= c <= '9'
  }

  /** The value of a decimal numeral (0 for the empty one). */
  function DigitsValue(d: string): (v: nat)
    requires forall i :: 0 <= i < |d| ==> IsDigit(d[i])
  {
    if d == [] then 0
    else
      var last := d[|d| - 1];
      assert IsDigit(last);
      10 * DigitsValue(d[..|d| - 1]) + (last as int - '0' as int)
  }

  /** `String(n)` for an integer. */
  function NatToString(n: nat): (r: string)
    ensures |r| >= 1
    ensures forall i :: 0 <= i < |r| ==> '0' <= r[i] <= '9'
  {
    if n < 10 then [('0' as int + n) as char]
    else NatToString(n / 10) + [('0' as int + n % 10) as char]
  }

  function IntToString(n: int): (r: string)
    ensures |r| >= 1
  {
    if n < 0 then "-" + NatToString(-n) else NatToString(n)
  }

  // ---------------------------------------------------------------------------
  // Arithmetic
  // ---------------------------------------------------------------------------

  /**
   * `Math.round(n / d)` for a positive divisor: the nearest integer, halves
   * rounded up. `Math.round((c / t) * 100)` is `RoundDiv(100 * c, t)`.
   */
  function RoundDiv(n: int, d: int): int
    requires d > 0
  {
    (2 * n + d) / (2 * d)
  }

  /** `RoundDiv(n, d)` is the integer nearest to `n / d`, a half rounding up. */
  lemma RoundDivNearest(n: int, d: int)
    requires d > 0
    ensures d * (2 * RoundDiv(n, d) - 1) <= 2 * n < d * (2 * RoundDiv(n, d) + 1)
  {
    var r := RoundDiv(n, d);
    var m := (2 * n + d) % (2 * d);
    assert 2 * n + d == 2 * d * r + m && 0 <= m < 2 * d;
    assert d * (2 * r - 1) == 2 * d * r - d;
    assert d * (2 * r + 1) == 2 * d * r + d;
  }

  /** A rounded quotient of a value between `d * lo` and `d * hi` lies between `lo` and `hi`. */
  lemma RoundDivBetween(n: int, d: int, lo: int, hi: int)
    requires d > 0 && d * lo <= n <= d * hi
    ensures lo <= RoundDiv(n, d) <= hi
  {
    var a, b := 2 * n + d, 2 * d;
    assert b * lo == 2 * (d * lo);
    assert b * hi == 2 * (d * hi);
    DivAtLeast(a, b, lo);
    DivAtMost(a, b, hi);
  }

  lemma DivAtLeast(a: int, b: int, k: int)
    requires b > 0 && b * k <= a
    ensures k <= a / b
  {
    var q, r := a / b, a % b;
    assert a == b * q + r && 0 <= r < b;
    if q < k { MulLe(b, q + 1, k); }
  }

  lemma DivAtMost(a: int, b: int, k: int)
    requires b > 0 && a < b * k + b
    ensures a / b <= k
  {
    var q, r := a / b, a % b;
    assert a == b * q + r && 0 <= r < b;
    if q > k { MulLe(b, k + 1, q); }
  }

  /** Multiplying by a non-negative factor keeps the order. */
  lemma MulLe(b: int, x: int, y: int)
    requires b >= 0 && x <= y
    ensures b * x <= b * y
  {
    assert b * y - b * x == b * (y - x);
  }

  /** Euclidean division by a positive divisor is the unique quotient. */
  lemma DivIs(a: int, b: int, k: int)
    requires b > 0 && b * k <= a < b * k + b
    ensures a / b == k
  {
    var q, r := a / b, a % b;
    assert a == b * q + r && 0 <= r < b;
    if q > k { MulLe(b, k + 1, q); }
    if q < k { MulLe(b, q + 1, k); }
  }

  lemma DivLe(a: int, b: int, k: int)
    requires b > 0 && 0 <= a < b * k + b
    ensures 0 <= a / b <= k
  {
    var q, r := a / b, a % b;
    assert a == b * q + r && 0 <= r < b;
    if q > k { MulLe(b, k + 1, q); }
  }

  /** A rounded percentage of a part of a whole lies in [0, 100]. */
  lemma PercentBounds(c: int, t: int)
    requires 0 <= c <= t && t > 0
    ensures 0 <= RoundDiv(100 * c, t) <= 100
  {
    DivLe(200 * c + t, 2 * t, 100);
  }

  /** The whole is 100 per cent of itself. */
  lemma PercentFull(t: int)
    requires t > 0
    ensures RoundDiv(100 * t, t) == 100
  {
    DivIs(200 * t + t, 2 * t, 100);
  }

  /** A rounded percentage rate: 0 when there is nothing to divide by. */
  function Percent(c: nat, t: nat): (r: int)
    requires c <= t
    ensures 0 <= r <= 100
    ensures t == 0 ==> r == 0
    ensures t > 0 && c == t ==> r == 100
    ensures t > 0 && c == 0 ==> r == 0
  {
    if t == 0 then 0
    else
      PercentBounds(c, t);
      if c == t then PercentFull(t); 100 else RoundDiv(100 * c, t)
  }

  function Pow2(k: nat): (r: nat)
    ensures r >= 1
  {
    if k == 0 then 1 else 2 * Pow2(k - 1)
  }

  // ---------------------------------------------------------------------------
  // Sequences
  // ---------------------------------------------------------------------------

  /** `xs.filter(p)`: the order-preserving subsequence of elements satisfying `p`. */
  function Filter<T>(xs: seq<T>, p: T -> bool): (r: seq<T>)
    ensures |r| <= |xs|
    ensures forall x :: x in r ==> x in xs && p(x)
    ensures forall x :: x in xs && p(x) ==> x in r
  {
    if xs == [] then []
    else if p(xs[0]) then [xs[0]] + Filter(xs[1..], p)
    else Filter(xs[1..], p)
  }

  /** Every index moved up by one. */
  function Shifted(ix: seq<nat>): (r: seq<nat>)
    ensures |r| == |ix| && forall k :: 0 <= k < |ix| ==> r[k] == ix[k] + 1
  {
    seq(|ix|, k requires 0 <= k < |ix| => ix[k] + 1)
  }

  /**
   * The positions of `xs` that `Filter` keeps: strictly increasing, exactly the
   * positions whose element satisfies `p`, and the result reads `xs` at them.
   * So `Filter` keeps both the order and the repetitions of its input.
   */
  function FilterIndices<T>(xs: seq<T>, p: T -> bool): (ix: seq<nat>)
    ensures IndexMap(xs, p, Filter(xs, p), ix)
  {
    if xs == [] then []
    else
      var rest := FilterIndices(xs[1..], p);
      if p(xs[0]) then
        FilterIndicesKeep(xs, p, rest);
        [0] + Shifted(rest)
      else
        FilterIndicesSkip(xs, p, rest);
        Shifted(rest)
  }

  /**
   * `ix` lists, in increasing order, exactly the positions of `xs` whose element
   * satisfies `p`, and `r` reads `xs` at those positions.
   */
  ghost predicate IndexMap<T>(xs: seq<T>, p: T -> bool, r: seq<T>, ix: seq<nat>) {
    |ix| == |r|
    && (forall k :: 0 <= k < |ix| ==> ix[k] < |xs| && r[k] == xs[ix[k]])
    && (forall k, l :: 0 <= k < l < |ix| ==> ix[k] < ix[l])
    && (forall j :: 0 <= j < |xs| ==> (p(xs[j]) <==> j in ix))
  }

  lemma ShiftedIn(rest: seq<nat>, n: nat)
    requires forall k :: 0 <= k < |rest| ==> rest[k] < n
    ensures 0 !in Shifted(rest)
    ensures forall j :: 1 <= j <= n ==> (j in Shifted(rest) <==> j - 1 in rest)
  {
    var sh := Shifted(rest);
    forall j | 1 <= j <= n ensures j in sh <==> j - 1 in rest {
      if j - 1 in rest {
        var k :| 0 <= k < |rest| && rest[k] == j - 1;
        assert sh[k] == j;
      }
    }
  }

  /** Putting 0 in front of increasing indices moved up by one keeps them increasing. */
  lemma ConsZeroIncreasing(rest: seq<nat>)
    requires forall k, l :: 0 <= k < l < |rest| ==> rest[k] < rest[l]
    ensures var ix := [0] + Shifted(rest);
      forall k, l :: 0 <= k < l < |ix| ==> ix[k] < ix[l]
  {
    var ix := [0] + Shifted(rest);
    forall k, l | 0 <= k < l < |ix| ensures ix[k] < ix[l] {
      assert ix[l] == rest[l - 1] + 1;
      if k > 0 {
        assert ix[k] == rest[k - 1] + 1;
      }
    }
  }

  lemma FilterIndicesKeep<T>(xs: seq<T>, p: T -> bool, rest: seq<nat>)
    requires xs != [] && p(xs[0])
    requires IndexMap(xs[1..], p, Filter(xs[1..], p), rest)
    ensures IndexMap(xs, p, Filter(xs, p), [0] + Shifted(rest))
  {
    KeepReads(xs, p, rest);
    ConsZeroIncreasing(rest);
    KeepMembers(xs, p, rest);
  }

  lemma KeepReads<T>(xs: seq<T>, p: T -> bool, rest: seq<nat>)
    requires xs != [] && p(xs[0])
    requires |rest| == |Filter(xs[1..], p)|
    requires forall k :: 0 <= k < |rest| ==> rest[k] < |xs| - 1 && Filter(xs[1..], p)[k] == xs[1..][rest[k]]
    ensures var ix := [0] + Shifted(rest);
      |ix| == |Filter(xs, p)| && forall k :: 0 <= k < |ix| ==> ix[k] < |xs| && Filter(xs, p)[k] == xs[ix[k]]
  {
    var ix := [0] + Shifted(rest);
    var g := Filter(xs[1..], p);
    var f := Filter(xs, p);
    assert f == [xs[0]] + g;
    forall k | 0 <= k < |ix| ensures ix[k] < |xs| && f[k] == xs[ix[k]] {
      if k > 0 {
        var m := rest[k - 1];
        assert ix[k] == m + 1;
        assert f[k] == g[k - 1] == xs[1..][m];
      }
    }
  }

  lemma KeepMembers<T>(xs: seq<T>, p: T -> bool, rest: seq<nat>)
    requires xs != [] && p(xs[0])
    requires forall k :: 0 <= k < |rest| ==> rest[k] < |xs| - 1
    requires forall j :: 0 <= j < |xs| - 1 ==> (p(xs[1..][j]) <==> j in rest)
    ensures forall j :: 0 <= j < |xs| ==> (p(xs[j]) <==> j in [0] + Shifted(rest))
  {
    ShiftedIn(rest, |xs| - 1);
    var ix := [0] + Shifted(rest);
    forall j | 0 <= j < |xs| ensures p(xs[j]) <==> j in ix {
      if j > 0 {
        assert xs[j] == xs[1..][j - 1];
        assert j in ix <==> j in Shifted(rest);
      }
    }
  }

  lemma FilterIndicesSkip<T>(xs: seq<T>, p: T -> bool, rest: seq<nat>)
    requires xs != [] && !p(xs[0])
    requires IndexMap(xs[1..], p, Filter(xs[1..], p), rest)
    ensures IndexMap(xs, p, Filter(xs, p), Shifted(rest))
  {
    SkipReads(xs, p, rest);
    ShiftedIncreasing(rest);
    SkipMembers(xs, p, rest);
  }

  lemma SkipReads<T>(xs: seq<T>, p: T -> bool, rest: seq<nat>)
    requires xs != [] && !p(xs[0])
    requires |rest| == |Filter(xs[1..], p)|
    requires forall k :: 0 <= k < |rest| ==> rest[k] < |xs| - 1 && Filter(xs[1..], p)[k] == xs[1..][rest[k]]
    ensures var sh := Shifted(rest);
      |sh| == |Filter(xs, p)| && forall k :: 0 <= k < |sh| ==> sh[k] < |xs| && Filter(xs, p)[k] == xs[sh[k]]
  {
    var sh := Shifted(rest);
    var f := Filter(xs, p);
    assert f == Filter(xs[1..], p);
    forall k | 0 <= k < |sh| ensures sh[k] < |xs| && f[k] == xs[sh[k]] {
      var m := rest[k];
      assert sh[k] == m + 1;
      assert f[k] == xs[1..][m];
    }
  }

  /** Moving increasing indices up by one keeps them increasing. */
  lemma ShiftedIncreasing(rest: seq<nat>)
    requires forall k, l :: 0 <= k < l < |rest| ==> rest[k] < rest[l]
    ensures var sh := Shifted(rest);
      forall k, l :: 0 <= k < l < |sh| ==> sh[k] < sh[l]
  {
  }

  lemma SkipMembers<T>(xs: seq<T>, p: T -> bool, rest: seq<nat>)
    requires xs != [] && !p(xs[0])
    requires forall k :: 0 <= k < |rest| ==> rest[k] < |xs| - 1
    requires forall j :: 0 <= j < |xs| - 1 ==> (p(xs[1..][j]) <==> j in rest)
    ensures forall j :: 0 <= j < |xs| ==> (p(xs[j]) <==> j in Shifted(rest))
  {
    ShiftedIn(rest, |xs| - 1);
    forall j | 0 <= j < |xs| ensures p(xs[j]) <==> j in Shifted(rest) {
      if j > 0 {
        assert xs[j] == xs[1..][j - 1];
      }
    }
  }

  lemma {:induction false} FilterAppend<T>(a: seq<T>, b: seq<T>, p: T -> bool)
    ensures Filter(a + b, p) == Filter(a, p) + Filter(b, p)
  {
    if a != [] {
      assert (a + b)[0] == a[0];
      assert (a + b)[1..] == a[1..] + b;
      FilterAppend(a[1..], b, p);
    } else {
      assert a + b == b;
    }
  }

  /** Filtering twice is filtering once by both predicates. */
  lemma {:induction false} FilterFilter<T>(xs: seq<T>, p: T -> bool, q: T -> bool, pq: T -> bool)
    requires forall x :: pq(x) == (p(x) && q(x))
    ensures Filter(Filter(xs, p), q) == Filter(xs, pq)
  {
    if xs != [] {
      FilterFilter(xs[1..], p, q, pq);
      if p(xs[0]) {
        assert Filter(xs, p) == [xs[0]] + Filter(xs[1..], p);
        assert Filter(xs, p)[1..] == Filter(xs[1..], p);
      }
    }
  }

  /** Filtering by a predicate every element satisfies keeps the sequence. */
  lemma FilterAll<T>(xs: seq<T>, p: T -> bool)
    requires forall x :: x in xs ==> p(x)
    ensures Filter(xs, p) == xs
  {
  }

  lemma FilterNone<T>(xs: seq<T>, p: T -> bool)
    requires forall i :: 0 <= i < |xs| ==> !p(xs[i])
    ensures Filter(xs, p) == []
  {
  }

  /** Number of elements satisfying `p`: `xs.filter(p).length`. */
  function Count<T>(xs: seq<T>, p: T -> bool): (n: nat)
    ensures n <= |xs|
  {
    |Filter(xs, p)|
  }

  /** Two predicates that agree on every element count the same elements. */
  lemma CountSame<T>(xs: seq<T>, p: T -> bool, q: T -> bool)
    requires forall x :: x in xs ==> p(x) == q(x)
    ensures Count(xs, p) == Count(xs, q)
  {
    CountMono(xs, p, q);
    CountMono(xs, q, p);
  }

  /** Complementary filters split the elements: together they hold each element as often as `xs`. */
  lemma {:induction false} FilterPartition<T>(xs: seq<T>, p: T -> bool, q: T -> bool)
    requires forall x :: x in xs ==> (p(x) <==> !q(x))
    ensures multiset(Filter(xs, p)) + multiset(Filter(xs, q)) == multiset(xs)
  {
    if xs != [] {
      var rest := xs[1..];
      assert forall x :: x in rest ==> x in xs;
      FilterPartition(rest, p, q);
      var pr, qr := multiset(Filter(rest, p)), multiset(Filter(rest, q));
      assert multiset(xs) == multiset{xs[0]} + multiset(rest) by {
        assert xs == [xs[0]] + rest;
      }
      if p(xs[0]) {
        assert multiset(Filter(xs, p)) == multiset{xs[0]} + pr;
        assert multiset(Filter(xs, q)) == qr;
      } else {
        assert multiset(Filter(xs, q)) == multiset{xs[0]} + qr;
        assert multiset(Filter(xs, p)) == pr;
      }
    }
  }

  /** `xs.reduce((sum, x) => sum + f(x), 0)`. */
  function Sum<T>(xs: seq<T>, f: T -> int): int {
    if xs == [] then 0 else f(xs[0]) + Sum(xs[1..], f)
  }

  lemma {:induction false} SumAppend<T>(a: seq<T>, b: seq<T>, f: T -> int)
    ensures Sum(a + b, f) == Sum(a, f) + Sum(b, f)
  {
    if a != [] {
      assert (a + b)[0] == a[0];
      assert (a + b)[1..] == a[1..] + b;
      SumAppend(a[1..], b, f);
    } else {
      assert a + b == b;
    }
  }

  /** Summing `f` over the kept elements is summing, over all of them, `f` where `p` holds and 0 elsewhere. */
  lemma {:induction false} SumFilterMasked<T>(xs: seq<T>, p: T -> bool, f: T -> int, g: T -> int)
    requires forall x :: g(x) == (if p(x) then f(x) else 0)
    ensures Sum(Filter(xs, p), f) == Sum(xs, g)
  {
    if xs != [] {
      SumFilterMasked(xs[1..], p, f, g);
      if p(xs[0]) {
        assert Filter(xs, p) == [xs[0]] + Filter(xs[1..], p);
        assert ([xs[0]] + Filter(xs[1..], p))[1..] == Filter(xs[1..], p);
      }
    }
  }

  /** Counts under two predicates that split every element add up to the length. */
  lemma {:induction false} CountSplit<T>(xs: seq<T>, p: T -> bool, q: T -> bool)
    requires forall x :: x in xs ==> (p(x) <==> !q(x))
    ensures Count(xs, p) + Count(xs, q) == |xs|
  {
    if xs != [] {
      CountSplit(xs[1..], p, q);
    }
  }

  /** Counting under a weaker predicate never counts fewer elements. */
  lemma {:induction false} CountMono<T>(xs: seq<T>, p: T -> bool, q: T -> bool)
    requires forall x :: x in xs && p(x) ==> q(x)
    ensures Count(xs, p) <= Count(xs, q)
  {
    if xs != [] {
      CountMono(xs[1..], p, q);
    }
  }

  /** Terms of at least `lo` make a sum of at least `|xs| * lo`. */
  lemma {:induction false} SumAtLeast<T>(xs: seq<T>, f: T -> int, lo: int)
    requires forall x :: x in xs ==> lo <= f(x)
    ensures |xs| * lo <= Sum(xs, f)
  {
    if xs != [] {
      var rest := xs[1..];
      forall x | x in rest ensures lo <= f(x) {
        assert x in xs;
      }
      SumAtLeast(rest, f, lo);
      var n := |rest|;
      assert |xs| == n + 1;
      assert (n + 1) * lo == n * lo + lo;
    }
  }

  /** Terms of at most `hi` make a sum of at most `|xs| * hi`. */
  lemma {:induction false} SumAtMost<T>(xs: seq<T>, f: T -> int, hi: int)
    requires forall x :: x in xs ==> f(x) <= hi
    ensures Sum(xs, f) <= |xs| * hi
  {
    if xs != [] {
      var rest := xs[1..];
      forall x | x in rest ensures f(x) <= hi {
        assert x in xs;
      }
      SumAtMost(rest, f, hi);
      var n := |rest|;
      assert |xs| == n + 1;
      assert (n + 1) * hi == n * hi + hi;
    }
  }

  /** Elements split by two complementary predicates: the two filtered sums make the whole. */
  lemma {:induction false} SumSplit<T>(xs: seq<T>, p: T -> bool, q: T -> bool, f: T -> int)
    requires forall x :: x in xs ==> (p(x) <==> !q(x))
    ensures Sum(Filter(xs, p), f) + Sum(Filter(xs, q), f) == Sum(xs, f)
  {
    if xs != [] {
      SumSplit(xs[1..], p, q, f);
    }
  }

  /** Reordering a sequence does not change its sum. */
  lemma {:induction false} SumPermutation<T>(a: seq<T>, b: seq<T>, f: T -> int)
    requires multiset(a) == multiset(b)
    ensures Sum(a, f) == Sum(b, f)
    decreases |a|
  {
    if a == [] {
      assert |b| == |multiset(b)|;
    } else {
      var x := a[0];
      assert x in multiset(b);
      var j :| 0 <= j < |b| && b[j] == x;
      var rest := b[..j] + b[j + 1..];
      assert b == b[..j] + [x] + b[j + 1..];
      SumAppend(b[..j] + [x], b[j + 1..], f);
      SumAppend(b[..j], [x], f);
      SumAppend(b[..j], b[j + 1..], f);
      assert [x][1..] == [];
      assert a == [x] + a[1..];
      assert multiset(b) == multiset(b[..j]) + multiset{x} + multiset(b[j + 1..]);
      assert multiset(rest) == multiset(b[..j]) + multiset(b[j + 1..]);
      assert multiset(a) == multiset{x} + multiset(a[1..]);
      assert multiset(a[1..]) == multiset(a) - multiset{x};
      assert multiset(rest) == multiset(b) - multiset{x};
      SumPermutation(a[1..], rest, f);
    }
  }

  /** No element occurs twice. */
  predicate Distinct<T(==)>(s: seq<T>) {
    forall i, j :: 0 <= i < j < |s| ==> s[i] != s[j]
  }

  lemma {:induction false} DistinctCount<T>(a: seq<T>, x: T)
    requires Distinct(a)
    ensures multiset(a)[x] <= 1
  {
    if a != [] {
      assert a == [a[0]] + a[1..];
      DistinctCount(a[1..], x);
      if x == a[0] {
        assert x !in a[1..] by {
          forall j | 0 <= j < |a[1..]| ensures a[1..][j] != x {
            assert a[1..][j] == a[j + 1];
          }
        }
      }
    }
  }

  lemma TwoOccurrences<T>(b: seq<T>, i: nat, j: nat)
    requires i < j < |b|
    ensures b[i] == b[j] ==> multiset(b)[b[i]] >= 2
  {
    if b[i] == b[j] {
      assert b == b[..i] + [b[i]] + b[i + 1..j] + [b[j]] + b[j + 1..];
    }
  }

  /** A reordering of a sequence without repetitions has none either. */
  lemma DistinctPermutation<T>(a: seq<T>, b: seq<T>)
    requires multiset(a) == multiset(b) && Distinct(a)
    ensures Distinct(b)
  {
    forall i, j | 0 <= i < j < |b| ensures b[i] != b[j] {
      DistinctCount(a, b[i]);
      TwoOccurrences(b, i, j);
    }
  }

  /** Rows with pairwise different names keep them different when reordered. */
  lemma DistinctByName<R, K>(rows: seq<R>, r: seq<R>, name: R -> K)
    requires multiset(r) == multiset(rows)
    requires forall a, b :: 0 <= a < b < |rows| ==> name(rows[a]) != name(rows[b])
    ensures forall i, j :: 0 <= i < j < |r| ==> name(r[i]) != name(r[j])
  {
    DistinctPermutation(rows, r);
    forall i, j | 0 <= i < j < |r| ensures name(r[i]) != name(r[j]) {
      assert r[i] in multiset(rows) && r[j] in multiset(rows);
      var a :| 0 <= a < |rows| && rows[a] == r[i];
      var b :| 0 <= b < |rows| && rows[b] == r[j];
      assert a != b;
    }
  }

  /** Filtering keeps names that were pairwise distinct pairwise distinct. */
  lemma {:induction false} FilterKeepsDistinct<R, K>(rows: seq<R>, p: R -> bool, name: R -> K)
    requires forall a, b :: 0 <= a < b < |rows| ==> name(rows[a]) != name(rows[b])
    ensures forall a, b :: 0 <= a < b < |Filter(rows, p)| ==> name(Filter(rows, p)[a]) != name(Filter(rows, p)[b])
  {
    if rows != [] {
      var tail := rows[1..];
      FilterKeepsDistinct(tail, p, name);
      if p(rows[0]) {
        var t := Filter(tail, p);
        forall x | x in t ensures name(x) != name(rows[0]) {
          var k :| 0 <= k < |tail| && tail[k] == x;
          assert rows[k + 1] == x;
        }
        assert Filter(rows, p) == [rows[0]] + t;
      }
    }
  }

  /** The position of the first occurrence of `x` in `s`. */
  function IndexOf<T(==)>(s: seq<T>, x: T): (i: nat)
    requires x in s
    ensures i < |s| && s[i] == x
    ensures forall j :: 0 <= j < i ==> s[j] != x
  {
    if s[0] == x then 0 else 1 + IndexOf(s[1..], x)
  }

  /** In a sequence without repetitions an element's first position is its position. */
  lemma IndexOfDistinct<T>(s: seq<T>, i: nat)
    requires Distinct(s) && i < |s|
    ensures IndexOf(s, s[i]) == i
  {
  }

  /** What holds of every row holds of every row of a reordering. */
  lemma PermutationKeeps<R>(rows: seq<R>, r: seq<R>, p: R -> bool)
    requires multiset(r) == multiset(rows)
    requires forall i :: 0 <= i < |rows| ==> p(rows[i])
    ensures forall i :: 0 <= i < |r| ==> p(r[i])
  {
    forall i | 0 <= i < |r| ensures p(r[i]) {
      assert r[i] in multiset(rows);
    }
  }

  // ---------------------------------------------------------------------------
  // Stable descending sort
  // ---------------------------------------------------------------------------

  /** Non-increasing under `key`. */
  ghost predicate SortedDesc<T>(s: seq<T>, key: T -> int) {
    forall i, j :: 0 <= i < j < |s| ==> key(s[i]) >= key(s[j])
  }

  /**
   * Puts `x`, which came before every element of `s`, in front of the first
   * element whose key is not larger: equal keys keep their original order.
   */
  function Insert<T>(x: T, s: seq<T>, key: T -> int): (r: seq<T>)
    ensures |r| == |s| + 1
    ensures multiset(r) == multiset(s) + multiset{x}
  {
    if s == [] || key(s[0]) <= key(x) then [x] + s
    else
      assert s == [s[0]] + s[1..];
      [s[0]] + Insert(x, s[1..], key)
  }

  lemma {:induction false} InsertSorted<T>(x: T, s: seq<T>, key: T -> int)
    requires SortedDesc(s, key)
    ensures SortedDesc(Insert(x, s, key), key)
  {
    if s != [] && key(s[0]) > key(x) {
      InsertSorted(x, s[1..], key);
      var r := Insert(x, s, key);
      var t := Insert(x, s[1..], key);
      assert r == [s[0]] + t;
      forall j | 0 <= j < |t| ensures key(s[0]) >= key(t[j]) {
        assert t[j] in multiset(t);
        assert t[j] in multiset(s[1..]) + multiset{x};
        if t[j] != x {
          assert t[j] in s[1..];
        }
      }
    }
  }

  /**
   * `xs.sort((a, b) => key(b) - key(a))` as ECMAScript 2019 requires it: stable,
   * largest key first.
   */
  function SortDesc<T>(xs: seq<T>, key: T -> int): (r: seq<T>)
    ensures |r| == |xs|
    ensures multiset(r) == multiset(xs)
  {
    if xs == [] then []
    else
      assert xs == [xs[0]] + xs[1..];
      Insert(xs[0], SortDesc(xs[1..], key), key)
  }

  /** The sort result is ordered by non-increasing key. */
  lemma {:induction false} SortDescSorted<T>(xs: seq<T>, key: T -> int)
    ensures SortedDesc(SortDesc(xs, key), key)
  {
    if xs != [] {
      SortDescSorted(xs[1..], key);
      InsertSorted(xs[0], SortDesc(xs[1..], key), key);
    }
  }

  /** The elements whose key is `k`. */
  function KeyIs<T>(key: T -> int, k: int): T -> bool {
    (x: T) => key(x) == k
  }

  /** Inserting `x` puts it ahead of every element with the same key. */
  lemma {:induction false} InsertKeepsKeyOrder<T>(x: T, s: seq<T>, key: T -> int, k: int)
    ensures Filter(Insert(x, s, key), KeyIs(key, k))
         == (if key(x) == k then [x] else []) + Filter(s, KeyIs(key, k))
  {
    var p := KeyIs(key, k);
    if s == [] || key(s[0]) <= key(x) {
      assert Insert(x, s, key) == [x] + s;
      assert ([x] + s)[1..] == s;
    } else {
      var t := Insert(x, s[1..], key);
      InsertKeepsKeyOrder(x, s[1..], key, k);
      assert Insert(x, s, key) == [s[0]] + t;
      assert ([s[0]] + t)[1..] == t;
      if p(s[0]) {
        assert Filter(s, p) == [s[0]] + Filter(s[1..], p);
      } else {
        assert Filter(s, p) == Filter(s[1..], p);
      }
    }
  }

  /**
   * The sort is stable: for every key, the elements with that key come out in
   * the order in which they went in.
   */
  lemma {:induction false} SortDescStable<T>(xs: seq<T>, key: T -> int, k: int)
    ensures Filter(SortDesc(xs, key), KeyIs(key, k)) == Filter(xs, KeyIs(key, k))
  {
    if xs != [] {
      var p := KeyIs(key, k);
      SortDescStable(xs[1..], key, k);
      InsertKeepsKeyOrder(xs[0], SortDesc(xs[1..], key), key, k);
      if p(xs[0]) {
        assert Filter(xs, p) == [xs[0]] + Filter(xs[1..], p);
      } else {
        assert Filter(xs, p) == Filter(xs[1..], p);
      }
    }
  }

  /** Stability for every key at once. */
  lemma SortDescStableAll<T>(xs: seq<T>, key: T -> int)
    ensures forall k :: Filter(SortDesc(xs, key), KeyIs(key, k)) == Filter(xs, KeyIs(key, k))
  {
    forall k ensures Filter(SortDesc(xs, key), KeyIs(key, k)) == Filter(xs, KeyIs(key, k)) {
      SortDescStable(xs, key, k);
    }
  }

  /** The sort only reorders: every element keeps its place in the result. */
  lemma SortDescSameElements<T>(xs: seq<T>, key: T -> int)
    ensures forall x :: x in SortDesc(xs, key) <==> x in xs
  {
    var r := SortDesc(xs, key);
    forall x ensures x in r <==> x in xs {
      assert x in r <==> x in multiset(r);
      assert x in xs <==> x in multiset(xs);
    }
  }

  /**
   * Elements with the same key come out in increasing `rank`: with `rank` the
   * position an element had on the way in, ties keep their input order.
   */
  ghost predicate TiesBy<T>(s: seq<T>, key: T -> int, rank: T -> int) {
    forall i, j :: 0 <= i < j < |s| && key(s[i]) == key(s[j]) ==> rank(s[i]) < rank(s[j])
  }

  /** Strictly increasing under `rank`. */
  ghost predicate Ascending<T>(s: seq<T>, rank: T -> int) {
    forall i, j :: 0 <= i < j < |s| ==> rank(s[i]) < rank(s[j])
  }

  /**
   * The position in `ids` of an element's id (`|ids|` for an id not listed):
   * for rows read off a `Map`, their place in its insertion order.
   */
  function RankIn<R, K(==)>(ids: seq<K>, id: R -> K): R -> int {
    (x: R) => if id(x) in ids then IndexOf(ids, id(x)) else |ids|
  }

  /** Rows whose ids are `ids`, in that order, ascend in their rank in `ids`. */
  lemma RankInAscending<R, K>(ids: seq<K>, rows: seq<R>, id: R -> K)
    requires Distinct(ids) && |rows| == |ids|
    requires forall k :: 0 <= k < |rows| ==> id(rows[k]) == ids[k]
    ensures Ascending(rows, RankIn(ids, id))
  {
    forall k | 0 <= k < |rows| ensures RankIn(ids, id)(rows[k]) == k {
      IndexOfDistinct(ids, k);
    }
  }

  lemma TiesTail<T>(s: seq<T>, key: T -> int, rank: T -> int)
    requires s != [] && TiesBy(s, key, rank)
    ensures TiesBy(s[1..], key, rank)
  {
    var t := s[1..];
    forall i, j | 0 <= i < j < |t| && key(t[i]) == key(t[j]) ensures rank(t[i]) < rank(t[j]) {
      assert t[i] == s[i + 1] && t[j] == s[j + 1];
    }
  }

  /** An element that stays ahead of `x` precedes, in rank, the later elements with its key. */
  lemma HeadTies<T>(x: T, s: seq<T>, t: seq<T>, key: T -> int, rank: T -> int)
    requires s != [] && key(s[0]) > key(x) && TiesBy(s, key, rank)
    requires t == Insert(x, s[1..], key)
    ensures forall j :: 0 <= j < |t| && key(t[j]) == key(s[0]) ==> rank(s[0]) < rank(t[j])
  {
    forall j | 0 <= j < |t| && key(t[j]) == key(s[0]) ensures rank(s[0]) < rank(t[j]) {
      var y := t[j];
      assert y in multiset(t);
      assert y in multiset(s[1..]) + multiset{x};
      if y != x {
        assert y in multiset(s[1..]);
        var m :| 0 <= m < |s[1..]| && s[1..][m] == y;
        assert y == s[m + 1];
      }
    }
  }

  lemma {:induction false} InsertTies<T>(x: T, s: seq<T>, key: T -> int, rank: T -> int)
    requires TiesBy(s, key, rank)
    requires forall y :: y in s ==> rank(x) < rank(y)
    ensures TiesBy(Insert(x, s, key), key, rank)
  {
    if s != [] && key(s[0]) > key(x) {
      var t := Insert(x, s[1..], key);
      TiesTail(s, key, rank);
      InsertTies(x, s[1..], key, rank);
      HeadTies(x, s, t, key, rank);
      var r := Insert(x, s, key);
      assert r == [s[0]] + t;
      forall i, j | 0 <= i < j < |r| && key(r[i]) == key(r[j]) ensures rank(r[i]) < rank(r[j]) {
        assert r[j] == t[j - 1];
        if i > 0 {
          assert r[i] == t[i - 1];
          assert key(t[i - 1]) == key(t[j - 1]);
          assert rank(t[i - 1]) < rank(t[j - 1]);
        } else {
          assert r[0] == s[0] && key(t[j - 1]) == key(s[0]);
          assert rank(s[0]) < rank(t[j - 1]);
        }
      }
    } else {
      var r := Insert(x, s, key);
      assert r == [x] + s;
      forall i, j | 0 <= i < j < |r| && key(r[i]) == key(r[j]) ensures rank(r[i]) < rank(r[j]) {
        assert r[j] == s[j - 1] && s[j - 1] in s;
        if i > 0 {
          assert r[i] == s[i - 1];
        }
      }
    }
  }

  /** Sorting an input that ascends in `rank` leaves every run of equal keys in `rank` order. */
  lemma {:induction false} SortDescTies<T>(xs: seq<T>, key: T -> int, rank: T -> int)
    requires Ascending(xs, rank)
    ensures TiesBy(SortDesc(xs, key), key, rank)
  {
    if xs != [] {
      var rest := xs[1..];
      assert Ascending(rest, rank) by {
        forall i, j | 0 <= i < j < |rest| ensures rank(rest[i]) < rank(rest[j]) {
          assert rest[i] == xs[i + 1] && rest[j] == xs[j + 1];
        }
      }
      SortDescTies(rest, key, rank);
      var s := SortDesc(rest, key);
      forall y | y in s ensures rank(xs[0]) < rank(y) {
        assert y in multiset(s);
        assert y in multiset(rest);
        var m :| 0 <= m < |rest| && rest[m] == y;
        assert y == xs[m + 1];
      }
      InsertTies(xs[0], s, key, rank);
    }
  }

  /** A subsequence kept by `Filter` still ascends. */
  lemma FilterAscending<T>(xs: seq<T>, p: T -> bool, rank: T -> int)
    requires Ascending(xs, rank)
    ensures Ascending(Filter(xs, p), rank)
  {
    var ix := FilterIndices(xs, p);
    var r := Filter(xs, p);
    forall i, j | 0 <= i < j < |r| ensures rank(r[i]) < rank(r[j]) {
      assert r[i] == xs[ix[i]] && r[j] == xs[ix[j]];
    }
  }
}
