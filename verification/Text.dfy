/** Strings cut at separators and searched for substrings, and decimal numerals. */
module Text {
  ghost predicate Free(s: string, c: char) {
    c !in s
  }

  /** Two strings cut at their first separator agree piece by piece. */
  lemma CutUnique(a: string, b: string, c: char, r: string, t: string)
    requires Free(a, c) && Free(b, c) && a + [c] + r == b + [c] + t
    ensures a == b && r == t
  {
    var x, y := a + [c] + r, b + [c] + t;
    assert x[|a|] == c && forall i :: 0 <= i < |a| ==> x[i] == a[i];
    assert y[|b|] == c && forall i :: 0 <= i < |b| ==> y[i] == b[i];
    assert |a| == |b|;
    assert a == x[..|a|] && b == y[..|b|];
    assert r == x[|a| + 1..] && t == y[|b| + 1..];
  }

  /** Two strings cut at their last separator agree piece by piece. */
  lemma CutLastUnique(a: string, b: string, c: char, r: string, t: string)
    requires Free(r, c) && Free(t, c) && a + [c] + r == b + [c] + t
    ensures a == b && r == t
  {
    var x, y := a + [c] + r, b + [c] + t;
    assert x[|a|] == c && forall i :: |a| < i < |x| ==> x[i] == r[i - |a| - 1];
    assert y[|b|] == c && forall i :: |b| < i < |y| ==> y[i] == t[i - |b| - 1];
    assert |a| == |b|;
    assert a == x[..|a|] && b == y[..|b|];
    assert r == x[|a| + 1..] && t == y[|b| + 1..];
  }

  /** strings.Split with a one-character separator. */
  function Split(s: string, sep: char): (parts: seq<string>)
    ensures |parts| >= 1
  {
    SplitFrom(s, sep, "")
  }

  function SplitFrom(s: string, sep: char, piece: string): (parts: seq<string>)
    ensures |parts| >= 1
  {
    if s == "" then [piece]
    else if s[0] == sep then [piece] + SplitFrom(s[1..], sep, "")
    else SplitFrom(s[1..], sep, piece + [s[0]])
  }

  lemma {:induction false} SplitFree(s: string, sep: char, piece: string)
    requires Free(s, sep)
    ensures SplitFrom(s, sep, piece) == [piece + s]
    decreases |s|
  {
    if s == "" {
      assert piece + s == piece;
    } else {
      SplitFree(s[1..], sep, piece + [s[0]]);
      assert piece + [s[0]] + s[1..] == piece + s;
    }
  }

  /** Splitting a piece free of the separator, then the separator, then the rest. */
  lemma {:induction false} SplitCons(a: string, sep: char, rest: string, piece: string)
    requires Free(a, sep)
    ensures SplitFrom(a + [sep] + rest, sep, piece) == [piece + a] + SplitFrom(rest, sep, "")
    decreases |a|
  {
    var s := a + [sep] + rest;
    if a == "" {
      assert s[1..] == rest && piece + a == piece;
    } else {
      SplitCons(a[1..], sep, rest, piece + [a[0]]);
      assert s[1..] == a[1..] + [sep] + rest;
      assert piece + [a[0]] + a[1..] == piece + a;
    }
  }

  function Join(parts: seq<string>, sep: char): string
    requires |parts| >= 1
  {
    if |parts| == 1 then parts[0] else parts[0] + [sep] + Join(parts[1..], sep)
  }

  /** Joining undoes splitting, and no part holds the separator. */
  lemma {:induction false} JoinUndoesSplit(s: string, sep: char, piece: string)
    requires Free(piece, sep)
    ensures Join(SplitFrom(s, sep, piece), sep) == piece + s
    ensures forall i :: 0 <= i < |SplitFrom(s, sep, piece)| ==> Free(SplitFrom(s, sep, piece)[i], sep)
    decreases |s|
  {
    if s == "" {
      assert piece + s == piece;
    } else if s[0] == sep {
      JoinUndoesSplit(s[1..], sep, "");
      var tail := SplitFrom(s[1..], sep, "");
      assert ([piece] + tail)[1..] == tail;
      assert "" + s[1..] == s[1..];
      assert piece + [sep] + s[1..] == piece + s;
    } else {
      JoinUndoesSplit(s[1..], sep, piece + [s[0]]);
      assert piece + [s[0]] + s[1..] == piece + s;
    }
  }

  // ----- substring search

  predicate OccursAt(s: string, sub: string, i: int) {
    0 <= i <= |s| - |sub| && s[i..i + |sub|] == sub
  }

  ghost predicate Contains(s: string, sub: string) {
    exists i :: OccursAt(s, sub, i)
  }

  /** strings.Index: the first index at which `sub` occurs, or -1. */
  function Index(s: string, sub: string): (r: int)
    ensures r >= 0 ==> OccursAt(s, sub, r) && forall j :: 0 <= j < r ==> !OccursAt(s, sub, j)
    ensures r < 0 ==> r == -1 && !Contains(s, sub)
  {
    IndexFrom(s, sub, 0)
  }

  function IndexFrom(s: string, sub: string, i: nat): (r: int)
    ensures r >= 0 ==> i <= r && OccursAt(s, sub, r) && forall j :: i <= j < r ==> !OccursAt(s, sub, j)
    ensures r < 0 ==> r == -1 && forall j :: i <= j ==> !OccursAt(s, sub, j)
    decreases |s| - i
  {
    if i + |sub| > |s| then -1
    else if s[i..i + |sub|] == sub then i
    else IndexFrom(s, sub, i + 1)
  }

  /** A search loop for the first index at which `sub` occurs, or -1. */
  method IndexOf(s: string, sub: string) returns (r: int)
    ensures r >= 0 ==> OccursAt(s, sub, r) && forall i :: 0 <= i < r ==> !OccursAt(s, sub, i)
    ensures r < 0 ==> r == -1 && !Contains(s, sub)
  {
    var i := 0;
    while i + |sub| <= |s|
      invariant 0 <= i
      invariant forall j :: 0 <= j < i ==> !OccursAt(s, sub, j)
      decreases |s| - i
    {
      if s[i..i + |sub|] == sub {
        return i;
      }
      i := i + 1;
    }
    return -1;
  }

  // ----- decimal numerals

  function Digits(n: nat): string {
    if n < 10 then [Digit(n)] else Digits(n / 10) + [Digit(n % 10)]
  }

  function Digit(d: int): char
    requires 0 <= d < 10
  {
    "0123456789"[d]
  }

  /** %d of an integer. */
  function Decimal(n: int): string {
    if n < 0 then "-" + Digits(-n) else Digits(n)
  }

  function Value(s: string): int {
    if s == "" then 0 else 10 * Value(s[..|s| - 1]) + (s[|s| - 1] as int - '0' as int)
  }

  lemma {:induction false} DigitsValue(n: nat)
    ensures Value(Digits(n)) == n && Digits(n) != "" && Digits(n)[0] != '-'
    ensures forall c :: c in Digits(n) ==> '0' <= c <= '9'
    decreases n
  {
    if n >= 10 {
      DigitsValue(n / 10);
      assert Digits(n)[..|Digits(n)| - 1] == Digits(n / 10);
    }
  }

  lemma DecimalInjective(m: int, n: int)
    requires Decimal(m) == Decimal(n)
    ensures m == n
  {
    var a, b := if m < 0 then -m else m, if n < 0 then -n else n;
    DigitsValue(a);
    DigitsValue(b);
    assert (Decimal(m)[0] == '-') == (m < 0) && (Decimal(n)[0] == '-') == (n < 0);
    if m < 0 {
      assert Digits(a) == Decimal(m)[1..] && Digits(b) == Decimal(n)[1..];
    }
  }

  lemma DecimalFree(n: int, c: char)
    requires c != '-' && !('0' <= c <= '9')
    ensures Free(Decimal(n), c)
  {
    DigitsValue(if n < 0 then -n else n);
  }
}
