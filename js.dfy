/** The JavaScript built-ins the application leans on, stated over exact reals
    and Dafny strings: Math.round, Math.floor, the `%` operator on numbers,
    the `\s` character class with `trim()`, `startsWith`, `includes`, `split`
    and `join` on a one-character separator, `filter`, and decimal rendering
    of integers. */
module Js {

  // ---------------------------------------------------------------------
  // Numbers
  // ---------------------------------------------------------------------

  /** Math.round: rounds to the nearest integer, halves towards +infinity. */
  function Round(x: real): (r: int)
    ensures r as real - 0.5 <= x < r as real + 0.5
  {
    (x + 0.5).Floor
  }

  lemma RoundMonotone(x: real, y: real)
    requires x <= y
    ensures Round(x) <= Round(y)
  {
  }

  lemma RoundOfInt(n: int)
    ensures Round(n as real) == n
  {
  }

  /** Math.trunc. */
  function Trunc(x: real): (r: int)
    ensures 0.0 <= x ==> r as real <= x < r as real + 1.0
    ensures x < 0.0 ==> r as real - 1.0 < x <= r as real
  {
    if x >= 0.0 then x.Floor else -((-x).Floor)
  }

  /** The `%` operator on JavaScript numbers: the remainder takes the sign of
      the dividend (it is `x - d * trunc(x / d)`). */
  function Rem(x: real, d: real): (r: real)
    requires d > 0.0
    ensures 0.0 <= x ==> 0.0 <= r < d
    ensures x < 0.0 ==> -d < r <= 0.0
  {
    var q := x / d;
    var t := Trunc(q) as real;
    RemBounds(x, d, q, t);
    x - d * t
  }

  lemma RemBounds(x: real, d: real, q: real, t: real)
    requires d > 0.0 && q == x / d
    requires 0.0 <= x ==> t <= q < t + 1.0
    requires x < 0.0 ==> t - 1.0 < q <= t
    ensures 0.0 <= x ==> 0.0 <= x - d * t < d
    ensures x < 0.0 ==> -d < x - d * t <= 0.0
  {
    assert x == d * q;
    var f := q - t;
    assert x - d * t == d * f;
    if 0.0 <= x {
      assert 0.0 <= f < 1.0;
      PositiveProduct(d, f);
      PositiveProduct(d, 1.0 - f);
      assert d * (1.0 - f) == d - d * f;
    } else {
      assert -1.0 < f <= 0.0;
      PositiveProduct(d, -f);
      PositiveProduct(d, 1.0 + f);
      assert d * (1.0 + f) == d + d * f;
      assert d * (-f) == -(d * f);
    }
  }

  lemma PositiveProduct(a: real, b: real)
    requires a > 0.0 && b >= 0.0
    ensures a * b >= 0.0 && (b > 0.0 ==> a * b > 0.0)
  {
  }

  // ---------------------------------------------------------------------
  // Decimal rendering (Number.prototype.toString for integers)
  // ---------------------------------------------------------------------

  predicate IsDigit(c: char) { '0' <= c <= '9' }

  function DigitChar(d: nat): (c: char)
    requires d < 10
    ensures IsDigit(c) && (c as int) - ('0' as int) == d
  {
    ['0', '1', '2', '3', '4', '5', '6', '7', '8', '9'][d]
  }

  function DigitValue(c: char): nat
    requires IsDigit(c)
  {
    (c as int) - ('0' as int)
  }

  /** The value of a string of decimal digits. */
  function DecimalValue(s: string): nat
    requires forall i :: 0 <= i < |s| ==> IsDigit(s[i])
  {
    if s == [] then 0 else 10 * DecimalValue(s[..|s| - 1]) + DigitValue(s[|s| - 1])
  }

  function NatToString(n: nat): (s: string)
    ensures |s| >= 1 && forall i :: 0 <= i < |s| ==> IsDigit(s[i])
    ensures (|s| > 1 ==> s[0] != '0')
  {
    if n < 10 then [DigitChar(n)] else NatToString(n / 10) + [DigitChar(n % 10)]
  }

  /** Rendering and reading back agree: NatToString writes the value of n. */
  lemma {:induction false} NatToStringValue(n: nat)
    ensures DecimalValue(NatToString(n)) == n
  {
    var s := NatToString(n);
    if n >= 10 {
      NatToStringValue(n / 10);
      assert s[..|s| - 1] == NatToString(n / 10);
    }
  }

  /** A number below 10 renders as a single digit. */
  lemma NatToStringShort(n: nat)
    requires n < 10
    ensures |NatToString(n)| == 1
  {
  }

  function IntToString(i: int): (s: string)
    ensures |s| >= 1
    ensures (s[0] == '-') <==> i < 0
  {
    if i < 0 then "-" + NatToString(-i) else NatToString(i)
  }

  /** `padStart(2, '0')`. */
  function PadStart2(s: string): (r: string)
    ensures |r| == if |s| >= 2 then |s| else 2
    ensures r[|r| - |s|..] == s
    ensures forall i :: 0 <= i < |r| - |s| ==> r[i] == '0'
  {
    if |s| >= 2 then s else if |s| == 1 then "0" + s else "00"
  }

  // ---------------------------------------------------------------------
  // Whitespace, trim
  // ---------------------------------------------------------------------

  /** The `\s` class of JavaScript regular expressions, which is also the set
      `trim()` removes: the WhiteSpace and LineTerminator code points. */
  predicate IsSpace(c: char) {
    || c == ' ' || c == '\t' || c == '\n' || c == '\r'
    || c == '\U{000B}' || c == '\U{000C}' || c == '\U{00A0}' || c == '\U{1680}'
    || ('\U{2000}' <= c <= '\U{200A}')
    || c == '\U{2028}' || c == '\U{2029}' || c == '\U{202F}' || c == '\U{205F}'
    || c == '\U{3000}' || c == '\U{FEFF}'
  }

  predicate AllSpace(s: string) {
    forall i :: 0 <= i < |s| ==> IsSpace(s[i])
  }

  function TrimStart(s: string): (r: string)
    ensures r == [] || !IsSpace(r[0])
    ensures |r| <= |s| && r == s[|s| - |r|..] && AllSpace(s[..|s| - |r|])
  {
    if s != [] && IsSpace(s[0]) then TrimStart(s[1..]) else s
  }

  /** Leading whitespace followed by more text trims as the text alone. */
  lemma {:induction false} TrimStartAfterSpace(w: string, y: string)
    requires AllSpace(w)
    ensures TrimStart(w + y) == TrimStart(y)
    decreases |w|
  {
    if w != [] {
      var tail := w[1..];
      assert AllSpace(tail) by {
        forall i | 0 <= i < |tail| ensures IsSpace(tail[i]) { assert tail[i] == w[i + 1]; }
      }
      assert IsSpace((w + y)[0]) by { assert (w + y)[0] == w[0]; }
      assert (w + y)[1..] == tail + y;
      assert TrimStart(w + y) == TrimStart(tail + y);
      TrimStartAfterSpace(tail, y);
    } else {
      assert w + y == y;
    }
  }

  /** Once trimming stops inside a, whatever follows a is kept. */
  lemma {:induction false} TrimStartConcat(a: string, b: string)
    requires TrimStart(a) != []
    ensures TrimStart(a + b) == TrimStart(a) + b
    decreases |a|
  {
    assert (a + b)[0] == a[0];
    if IsSpace(a[0]) {
      assert (a + b)[1..] == a[1..] + b;
      TrimStartConcat(a[1..], b);
    }
  }

  /** Trimming the front never removes a visible last character. */
  lemma {:induction false} TrimStartKeepsLast(s: string)
    requires s != [] && !IsSpace(s[|s| - 1])
    ensures TrimStart(s) != [] && TrimStart(s)[|TrimStart(s)| - 1] == s[|s| - 1]
    decreases |s|
  {
    if IsSpace(s[0]) {
      TrimStartKeepsLast(s[1..]);
    }
  }

  function TrimEnd(s: string): (r: string)
    ensures r == [] || !IsSpace(r[|r| - 1])
    ensures |r| <= |s| && r == s[..|r|] && AllSpace(s[|r|..])
  {
    if s != [] && IsSpace(s[|s| - 1]) then TrimEnd(s[..|s| - 1]) else s
  }

  /** String.prototype.trim. */
  function Trim(s: string): (r: string)
    ensures r == [] || (!IsSpace(r[0]) && !IsSpace(r[|r| - 1]))
  {
    TrimEnd(TrimStart(s))
  }

  /** What trim keeps is one contiguous slice, with only whitespace cut
      away on either side. */
  lemma TrimSlice(s: string) returns (lo: nat, hi: nat)
    ensures lo <= hi <= |s| && Trim(s) == s[lo..hi]
    ensures AllSpace(s[..lo]) && AllSpace(s[hi..])
  {
    var t := TrimStart(s);
    var e := TrimEnd(t);
    lo := |s| - |t|;
    hi := lo + |e|;
    PrefixOfSuffix(s, t, e);
  }

  /** A prefix e of a suffix t of s, with whitespace cut off on both sides,
      is the slice of s between the two cuts. */
  lemma PrefixOfSuffix(s: string, t: string, e: string)
    requires |t| <= |s| && t == s[|s| - |t|..] && AllSpace(s[..|s| - |t|])
    requires |e| <= |t| && e == t[..|e|] && AllSpace(t[|e|..])
    ensures e == s[|s| - |t|..|s| - |t| + |e|] && AllSpace(s[|s| - |t| + |e|..])
  {
    var lo := |s| - |t|;
    assert t[|e|..] == s[lo + |e|..];
  }

  /** `!s.trim()`: the string is empty or all whitespace. */
  predicate IsBlank(s: string) {
    Trim(s) == []
  }

  lemma BlankIffAllSpace(s: string)
    ensures IsBlank(s) <==> AllSpace(s)
  {
    if !AllSpace(s) {
      var i :| 0 <= i < |s| && !IsSpace(s[i]);
      VisibleSurvivesTrim(s, i);
    }
  }

  lemma VisibleSurvivesTrim(s: string, i: nat)
    requires i < |s| && !IsSpace(s[i])
    ensures Trim(s) != []
  {
    var t := TrimStart(s);
    var k := |s| - |t|;
    assert k <= i;
    assert t[i - k] == s[i];
  }

  // ---------------------------------------------------------------------
  // Searching, splitting, joining
  // ---------------------------------------------------------------------

  /** String.prototype.startsWith. */
  predicate StartsWith(s: string, prefix: string) {
    |prefix| <= |s| && s[..|prefix|] == prefix
  }

  /** String.prototype.includes. */
  predicate Includes(s: string, part: string) {
    exists i :: 0 <= i <= |s| - |part| && OccursAt(s, part, i)
  }

  predicate OccursAt(s: string, part: string, i: nat)
    requires i + |part| <= |s|
  {
    s[i..i + |part|] == part
  }

  /** The index of the first occurrence of `c` in `s`. */
  function IndexOf(s: string, c: char): (k: nat)
    requires c in s
    ensures k < |s| && s[k] == c && c !in s[..k]
  {
    if s[0] == c then 0 else 1 + IndexOf(s[1..], c)
  }

  /** `s.split(c)` for a one-character separator: the pieces between the
      occurrences of `c`; a string without `c` is a single piece. */
  function Split(s: string, c: char): (parts: seq<string>)
    ensures |parts| >= 1
    ensures forall i :: 0 <= i < |parts| ==> c !in parts[i]
    decreases |s|
  {
    if c !in s then [s]
    else
      var k := IndexOf(s, c);
      [s[..k]] + Split(s[k + 1..], c)
  }

  /** `parts.join(sep)`. */
  function Join(parts: seq<string>, sep: string): string {
    if parts == [] then ""
    else if |parts| == 1 then parts[0]
    else parts[0] + sep + Join(parts[1..], sep)
  }

  /** Splitting and re-joining with the same separator gives back the string. */
  lemma {:induction false} JoinSplit(s: string, c: char)
    ensures Join(Split(s, c), [c]) == s
    decreases |s|
  {
    if c in s {
      var k := IndexOf(s, c);
      var head, rest := s[..k], s[k + 1..];
      var tail := Split(rest, c);
      var parts := Split(s, c);
      assert parts == [head] + tail;
      assert parts[1..] == tail;
      JoinSplit(rest, c);
      assert Join(parts, [c]) == head + [c] + rest;
      assert s == head + [c] + rest;
    }
  }

  /** Joining a concatenation is joining each half and putting the
      separator between them: join keeps the order of its parts. */
  lemma {:induction false} JoinConcat(a: seq<string>, b: seq<string>, sep: string)
    requires a != [] && b != []
    ensures Join(a + b, sep) == Join(a, sep) + sep + Join(b, sep)
  {
    assert (a + b)[0] == a[0];
    assert (a + b)[1..] == a[1..] + b;
    if |a| > 1 {
      JoinConcat(a[1..], b, sep);
    }
  }

  /** The first piece is the text before the first separator, and there is a
      second piece exactly when the separator occurs. */
  lemma SplitHead(s: string, c: char)
    ensures (|Split(s, c)| > 1) <==> c in s
    ensures c in s ==> Split(s, c)[0] == s[..IndexOf(s, c)]
    ensures c !in s ==> Split(s, c) == [s]
  {
  }

  // ---------------------------------------------------------------------
  // Array.prototype.filter
  // ---------------------------------------------------------------------

  function Filter<T(!new)>(s: seq<T>, keep: T -> bool): (r: seq<T>)
    ensures |r| <= |s|
    ensures forall i :: 0 <= i < |r| ==> r[i] in s && keep(r[i])
    ensures forall i :: 0 <= i < |s| && keep(s[i]) ==> s[i] in r
  {
    if s == [] then []
    else (if keep(s[0]) then [s[0]] else []) + Filter(s[1..], keep)
  }

  /** Filter keeps every kept value as many times as it occurs and drops the
      rest entirely. */
  lemma {:induction false} FilterCounts<T(!new)>(s: seq<T>, keep: T -> bool)
    ensures forall x :: multiset(Filter(s, keep))[x] == if keep(x) then multiset(s)[x] else 0
  {
    if s != [] {
      var head := if keep(s[0]) then [s[0]] else [];
      FilterCounts(s[1..], keep);
      assert s == [s[0]] + s[1..];
      assert multiset(s) == multiset{s[0]} + multiset(s[1..]);
      var rest := Filter(s[1..], keep);
      assert Filter(s, keep) == head + rest;
      assert multiset(Filter(s, keep)) == multiset(head) + multiset(rest);
      forall x ensures multiset(Filter(s, keep))[x] == if keep(x) then multiset(s)[x] else 0 {
        assert multiset(head)[x] == if keep(x) then multiset{s[0]}[x] else 0;
      }
    }
  }

  /** Filtering works piecewise, so it keeps the relative order of what it keeps. */
  lemma {:induction false} FilterConcat<T(!new)>(a: seq<T>, b: seq<T>, keep: T -> bool)
    ensures Filter(a + b, keep) == Filter(a, keep) + Filter(b, keep)
  {
    if a == [] {
      assert a + b == b;
    } else {
      var head := if keep(a[0]) then [a[0]] else [];
      assert (a + b)[0] == a[0];
      assert (a + b)[1..] == a[1..] + b;
      FilterConcat(a[1..], b, keep);
      calc {
        Filter(a + b, keep);
        head + Filter(a[1..] + b, keep);
        head + (Filter(a[1..], keep) + Filter(b, keep));
        (head + Filter(a[1..], keep)) + Filter(b, keep);
      }
    }
  }

  /** What filter keeps of a prefix is a prefix of what it keeps of the whole. */
  lemma FilterOfPrefix<T(!new)>(s: seq<T>, k: nat, keep: T -> bool)
    requires k <= |s|
    ensures var front := Filter(s[..k], keep);
      |front| <= |Filter(s, keep)| && Filter(s, keep)[..|front|] == front
  {
    assert s == s[..k] + s[k..];
    FilterConcat(s[..k], s[k..], keep);
  }

  /** Filtering a second time with the same test changes nothing. */
  lemma {:induction false} FilterIdempotent<T(!new)>(s: seq<T>, keep: T -> bool)
    ensures Filter(Filter(s, keep), keep) == Filter(s, keep)
  {
    if s != [] {
      FilterIdempotent(s[1..], keep);
      FilterConcat(if keep(s[0]) then [s[0]] else [], Filter(s[1..], keep), keep);
    }
  }

  /** When no element passes, filter returns the empty sequence. */
  lemma {:induction false} FilterNoneKept<T(!new)>(s: seq<T>, keep: T -> bool)
    requires forall i :: 0 <= i < |s| ==> !keep(s[i])
    ensures Filter(s, keep) == []
  {
    if s != [] { FilterNoneKept(s[1..], keep); }
  }

  /** When every element passes, filter returns the sequence unchanged. */
  lemma {:induction false} FilterAllKept<T(!new)>(s: seq<T>, keep: T -> bool)
    requires forall i :: 0 <= i < |s| ==> keep(s[i])
    ensures Filter(s, keep) == s
  {
    if s != [] { FilterAllKept(s[1..], keep); }
  }
}
