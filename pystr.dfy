/**
 * The Python string operations chanimg relies on, with Python's semantics:
 * `p in s`, `s.find(p)`, `s.replace(p, r)`, the slice `s[i:j]` and `str(n)`
 * for integers.
 */
module PyStr {

  /** `p` occurs in `s` starting at index `i`. */
  predicate OccursAt(s: string, p: string, i: int)
  {
    0 <= i && i + |p| <= |s| && s[i..i + |p|] == p
  }

  /** Python's substring test `p in s`. */
  predicate Contains(s: string, p: string)
  {
    exists i :: 0 <= i <= |s| - |p| && OccursAt(s, p, i)
  }

  predicate HasPrefix(s: string, p: string)
  {
    |p| <= |s| && s[..|p|] == p
  }

  predicate HasSuffix(s: string, p: string)
  {
    |p| <= |s| && s[|s| - |p|..] == p
  }

  /**
   * No occurrence of `p` in `x + y` can straddle the boundary: `p` is too
   * short, or a character next to the boundary is not in `p`.
   */
  predicate NoCrossing(x: string, y: string, p: string)
  {
    |p| <= 1 || |x| == 0 || |y| == 0 || x[|x| - 1] !in p || y[0] !in p
  }

  /* ---------------------------------------------------------------- find */

  /** Python's `s.find(p)`: the index of the first occurrence of `p`, or -1. */
  function Find(s: string, p: string): (r: int)
    ensures -1 <= r <= |s|
  {
    if |s| < |p| then -1
    else if s[..|p|] == p then 0
    else
      var f := Find(s[1..], p);
      if f < 0 then -1 else f + 1
  }

  lemma OccursAtTail(s: string, p: string, i: int)
    requires |s| > 0 && 1 <= i
    ensures OccursAt(s, p, i) <==> OccursAt(s[1..], p, i - 1)
  {
    if i + |p| <= |s| {
      assert s[i..i + |p|] == s[1..][i - 1..i - 1 + |p|];
    }
  }

  /** Find returns exactly the first occurrence, and -1 exactly when there is none. */
  lemma {:induction false} FindIsFirstOccurrence(s: string, p: string)
    ensures Find(s, p) == -1 <==> !Contains(s, p)
    ensures Find(s, p) >= 0 ==>
              OccursAt(s, p, Find(s, p)) &&
              forall j :: 0 <= j < Find(s, p) ==> !OccursAt(s, p, j)
  {
    if |s| < |p| {
      assert forall i :: !OccursAt(s, p, i);
    } else if s[..|p|] == p {
      assert OccursAt(s, p, 0);
    } else {
      assert !OccursAt(s, p, 0);
      FindIsFirstOccurrence(s[1..], p);
      forall i | 1 <= i { OccursAtTail(s, p, i); }
      if Contains(s[1..], p) {
        assert OccursAt(s, p, Find(s, p));
      }
    }
  }

  /** A character of `p` missing from `s` rules out every occurrence of `p`. */
  lemma AbsentCharRulesOut(s: string, p: string, c: char)
    requires c in p && c !in s
    ensures !Contains(s, p)
  {
  }

  /** An occurrence that straddles the boundary holds both boundary characters. */
  lemma CrossingWindow(x: string, y: string, p: string, j: int)
    requires 0 <= j < |x| < j + |p| && OccursAt(x + y, p, j)
    ensures x[|x| - 1] in p && y[0] in p
  {
    var u := x + y;
    assert u[j..j + |p|][|x| - 1 - j] == x[|x| - 1];
    assert u[j..j + |p|][|x| - j] == y[0];
  }

  /** An occurrence of `p` in `x + y` that starts inside `x` lies inside `x`. */
  lemma NoOccurrenceFromLeft(x: string, y: string, p: string, j: int)
    requires !Contains(x, p) && NoCrossing(x, y, p)
    requires 0 <= j < |x|
    ensures !OccursAt(x + y, p, j)
  {
    var u := x + y;
    if OccursAt(u, p, j) {
      if j + |p| <= |x| {
        assert u[j..j + |p|] == x[j..j + |p|];
        assert OccursAt(x, p, j);
      } else {
        CrossingWindow(x, y, p, j);
      }
    }
  }

  /** An occurrence of `p` in `x + y` starting at or after `|x|` is one of `y` shifted by `|x|`. */
  lemma OccurrenceFromRight(x: string, y: string, p: string, i: int)
    requires |x| <= i
    ensures OccursAt(x + y, p, i) <==> OccursAt(y, p, i - |x|)
  {
    var u := x + y;
    if i + |p| <= |u| {
      assert u[i..i + |p|] == y[i - |x|..i - |x| + |p|];
    }
  }

  /** Find in `x + y` when `p` neither occurs in `x` nor straddles the boundary. */
  lemma FindAppend(x: string, y: string, p: string)
    requires !Contains(x, p) && NoCrossing(x, y, p)
    ensures Find(x + y, p) == (if Find(y, p) < 0 then -1 else |x| + Find(y, p))
  {
    var u := x + y;
    FindIsFirstOccurrence(u, p);
    FindIsFirstOccurrence(y, p);
    var f, g := Find(u, p), Find(y, p);
    if f >= 0 {
      if f < |x| {
        NoOccurrenceFromLeft(x, y, p, f);
      } else {
        OccurrenceFromRight(x, y, p, f);
      }
    }
    if g >= 0 {
      OccurrenceFromRight(x, y, p, |x| + g);
    }
  }

  /* ------------------------------------------------------------- replace */

  /**
   * Python's `s.replace(p, r)` for a non-empty `p`: every occurrence, found
   * scanning left to right and never overlapping, is replaced by `r`.
   */
  function ReplaceAll(s: string, p: string, r: string): (t: string)
    requires |p| > 0
    decreases |s|
  {
    if |s| < |p| then s
    else if s[..|p|] == p then r + ReplaceAll(s[|p|..], p, r)
    else [s[0]] + ReplaceAll(s[1..], p, r)
  }

  /** Replacing a pattern that does not occur changes nothing. */
  lemma {:induction false} ReplaceAllAbsent(s: string, p: string, r: string)
    requires |p| > 0 && !Contains(s, p)
    ensures ReplaceAll(s, p, r) == s
  {
    if |s| >= |p| {
      assert !OccursAt(s, p, 0);
      forall i | OccursAt(s[1..], p, i) ensures false {
        OccursAtTail(s, p, i + 1);
      }
      ReplaceAllAbsent(s[1..], p, r);
    }
  }

  /** A window at the start of `x + y` that reaches past a short `x` is not `p`. */
  lemma NoMatchAtStart(x: string, y: string, p: string)
    requires 0 < |x| < |p| <= |x + y| && NoCrossing(x, y, p)
    ensures (x + y)[..|p|] != p
  {
    var u := x + y;
    assert u[|x| - 1] == x[|x| - 1] && u[|x|] == y[0];
  }

  /** The case of ReplaceAllAppend where `x` is shorter than the pattern. */
  lemma {:induction false} ReplaceShortLeft(x: string, y: string, p: string, r: string)
    requires 0 < |x| < |p| && NoCrossing(x, y, p)
    ensures ReplaceAll(x + y, p, r) == x + ReplaceAll(y, p, r)
    decreases |x|
  {
    var u := x + y;
    if |u| < |p| {
      assert ReplaceAll(y, p, r) == y;
    } else {
      NoMatchAtStart(x, y, p);
      assert ReplaceAll(u, p, r) == [x[0]] + ReplaceAll(u[1..], p, r);
      if |x| == 1 {
        assert u[1..] == y;
      } else {
        assert u[1..] == x[1..] + y;
        ReplaceShortLeft(x[1..], y, p, r);
        assert [x[0]] + x[1..] == x;
      }
    }
  }

  /** Replacing in `x + y` works piecewise when no occurrence straddles the boundary. */
  lemma {:induction false} ReplaceAllAppend(x: string, y: string, p: string, r: string)
    requires |p| > 0 && NoCrossing(x, y, p)
    ensures ReplaceAll(x + y, p, r) == ReplaceAll(x, p, r) + ReplaceAll(y, p, r)
    decreases |x|
  {
    var u := x + y;
    if |x| == 0 {
      assert u == y;
    } else if |x| < |p| {
      ReplaceShortLeft(x, y, p, r);
    } else if x[..|p|] == p {
      assert u[..|p|] == p;
      assert u[|p|..] == x[|p|..] + y;
      ReplaceAllAppend(x[|p|..], y, p, r);
    } else {
      assert u[..|p|] == x[..|p|];
      assert u[1..] == x[1..] + y;
      ReplaceAllAppend(x[1..], y, p, r);
    }
  }

  /* ------------------------------------------- removing one character */

  /** `s` with every occurrence of `c` deleted, order kept. */
  function Without(s: string, c: char): (r: string)
    ensures c !in r
    ensures |r| <= |s|
    ensures forall d :: d in r <==> d in s && d != c
  {
    if s == [] then []
    else (if s[0] == c then [] else [s[0]]) + Without(s[1..], c)
  }

  lemma {:induction false} WithoutAppend(x: string, y: string, c: char)
    ensures Without(x + y, c) == Without(x, c) + Without(y, c)
  {
    if x != [] {
      assert (x + y)[1..] == x[1..] + y;
      WithoutAppend(x[1..], y, c);
    } else {
      assert x + y == y;
    }
  }

  lemma {:induction false} WithoutAbsent(s: string, c: char)
    requires c !in s
    ensures Without(s, c) == s
  {
    if s != [] {
      WithoutAbsent(s[1..], c);
    }
  }

  /** Python's `s.replace(c, '')` for one character deletes exactly the `c`s. */
  lemma {:induction false} ReplaceCharByNothing(s: string, c: char)
    ensures ReplaceAll(s, [c], "") == Without(s, c)
  {
    if s != [] {
      ReplaceCharByNothing(s[1..], c);
      if s[0] == c {
        assert s[..1] == [c];
      } else {
        assert s[..1] != [c];
      }
    }
  }

  /* ------------------------------------------------------- str(int) */

  /** The decimal digit character for `d < 10`. */
  function DigitChar(d: nat): (c: char)
    requires d < 10
    ensures '0' <= c <= '9'
    ensures c as int - '0' as int == d
  {
    (d + '0' as int) as char
  }

  predicate AllDigits(s: string)
  {
    forall i :: 0 <= i < |s| ==> '0' <= s[i] <= '9'
  }

  /** The number left once the last decimal digit is taken off. */
  function Tens(n: nat): (r: nat)
    ensures n >= 10 ==> r < n
  {
    n / 10
  }

  /** The last decimal digit. */
  function Units(n: nat): (r: nat)
    ensures r < 10
  {
    n % 10
  }

  /** Python's `str(n)` for a non-negative integer: decimal, no leading zeros. */
  function NatToString(n: nat): (s: string)
    ensures |s| > 0
    ensures (n < 10) == (|s| == 1)
  {
    if n < 10 then [DigitChar(n)]
    else NatToString(Tens(n)) + [DigitChar(Units(n))]
  }

  /** `str(n)` writes only decimal digits. */
  lemma {:induction false} NatToStringDigits(n: nat)
    ensures AllDigits(NatToString(n))
  {
    if n >= 10 {
      NatToStringDigits(n / 10);
    }
  }

  /** Python's `str(i)` for any integer. */
  function IntToString(i: int): (s: string)
  {
    if i < 0 then "-" + NatToString(-i) else NatToString(i)
  }

  /** The value a string of decimal digits denotes (the reading of `int(s)`). */
  function DecimalValue(s: string): int
  {
    if s == [] then 0
    else DecimalValue(s[..|s| - 1]) * 10 + (s[|s| - 1] as int - '0' as int)
  }

  /** Reading back what `str(n)` wrote gives `n`: the decimal text is faithful. */
  lemma {:induction false} NatToStringRoundTrip(n: nat)
    ensures DecimalValue(NatToString(n)) == n
  {
    if n >= 10 {
      NatToStringRoundTrip(n / 10);
      var s := NatToString(n);
      assert s[..|s| - 1] == NatToString(n / 10);
    }
  }

  /** `str` of an integer never contains a path separator. */
  lemma IntToStringHasNoSlash(i: int)
    ensures '/' !in IntToString(i)
  {
    var s := NatToString(if i < 0 then -i else i);
    NatToStringDigits(if i < 0 then -i else i);
    assert forall k :: 0 <= k < |s| ==> s[k] != '/';
  }

  /* -------------------------------------------------------- slicing */

  /** How Python resolves a slice bound `i` against a length `n`. */
  function SliceBound(i: int, n: nat): (k: nat)
    ensures k <= n
    ensures 0 <= i <= n ==> k == i
  {
    if i < 0 then (if i + n < 0 then 0 else i + n)
    else if i > n then n
    else i
  }

  /** Python's `s[i:j]`: negative bounds count from the end, bounds are clamped. */
  function PySlice(s: string, i: int, j: int): (r: string)
    ensures |r| <= |s|
    ensures 0 <= i <= j <= |s| ==> r == s[i..j]
  {
    var lo, hi := SliceBound(i, |s|), SliceBound(j, |s|);
    if lo < hi then s[lo..hi] else ""
  }
}
