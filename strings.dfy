/** The string operations the application relies on: Python's `str(int)`,
    `lower()`, `strip()`, `isdigit()`, `in` on strings, `' '.join(...)` and
    `sorted(...)` on strings, restricted to ASCII. */
module Strings {
  import opened Wrappers

  // ---------------------------------------------------------------- case

  function LowerChar(c: char): char {
    if 'A' <= c <= 'Z' then (c as int + 32) as char else c
  }

  /** `s.lower()` on ASCII letters. */
  function ToLower(s: string): (r: string)
    ensures |r| == |s|
    ensures forall i :: 0 <= i < |s| ==> r[i] == LowerChar(s[i])
  {
    seq(|s|, i requires 0 <= i < |s| => LowerChar(s[i]))
  }

  // ---------------------------------------------------------- substrings

  predicate OccursAt(text: string, part: string, i: int) {
    0 <= i && i + |part| <= |text| && text[i..i + |part|] == part
  }

  /** Python's `part in text`. */
  predicate Contains(text: string, part: string) {
    exists i :: 0 <= i <= |text| - |part| && OccursAt(text, part, i)
  }

  /** The empty text is part of every text, and a part is never longer than its text. */
  lemma ContainsBounds(text: string, part: string)
    ensures Contains(text, "")
    ensures Contains(text, part) ==> |part| <= |text|
  {
    assert OccursAt(text, "", 0);
  }

  lemma ContainsLeft(a: string, t: string, part: string)
    requires Contains(a, part)
    ensures Contains(a + t, part)
  {
    var i :| 0 <= i <= |a| - |part| && OccursAt(a, part, i);
    assert (a + t)[i..i + |part|] == a[i..i + |part|];
    assert OccursAt(a + t, part, i);
  }

  lemma ContainsRight(t: string, a: string, part: string)
    requires Contains(a, part)
    ensures Contains(t + a, part)
  {
    var i :| 0 <= i <= |a| - |part| && OccursAt(a, part, i);
    assert (t + a)[|t| + i..|t| + i + |part|] == a[i..i + |part|];
    assert OccursAt(t + a, part, |t| + i);
  }

  lemma OccurrenceCovers(text: string, part: string, i: int, pos: int)
    requires OccursAt(text, part, i) && i <= pos < i + |part|
    ensures text[pos] in part
  {
    assert text[pos] == text[i..i + |part|][pos - i];
  }

  /** An occurrence of a part without `sep` in `a + [sep] + b` lies inside `a` or inside `b`. */
  lemma ContainsSplit(a: string, sep: char, b: string, part: string)
    requires sep !in part
    requires Contains(a + [sep] + b, part)
    ensures Contains(a, part) || Contains(b, part)
  {
    var text := a + [sep] + b;
    var i :| 0 <= i <= |text| - |part| && OccursAt(text, part, i);
    if i + |part| <= |a| {
      assert a[i..i + |part|] == text[i..i + |part|];
      assert OccursAt(a, part, i);
    } else {
      if i <= |a| {
        OccurrenceCovers(text, part, i, |a|);
        assert false;
      }
      var k := i - |a| - 1;
      assert b[k..k + |part|] == text[i..i + |part|];
      assert OccursAt(b, part, k);
    }
  }

  // --------------------------------------------------------------- join

  /** `sep.join(xs)` for a one-character separator. */
  function Join(xs: seq<string>, sep: char): (r: string)
    ensures xs == [] ==> r == ""
    ensures |xs| >= 2 ==> sep in r
  {
    if |xs| == 0 then ""
    else if |xs| == 1 then xs[0]
    else
      var r := xs[0] + [sep] + Join(xs[1..], sep);
      assert r[|xs[0]|] == sep;
      r
  }

  /** A keyword without the separator occurs in the joined text exactly when
      it occurs in one of the joined pieces. */
  lemma {:induction false} JoinContains(xs: seq<string>, sep: char, part: string)
    requires sep !in part && part != ""
    ensures Contains(Join(xs, sep), part) <==> exists i :: 0 <= i < |xs| && Contains(xs[i], part)
  {
    if |xs| <= 1 {
    } else {
      var rest := Join(xs[1..], sep);
      JoinContains(xs[1..], sep, part);
      assert Join(xs, sep) == xs[0] + [sep] + rest;
      if Contains(Join(xs, sep), part) {
        ContainsSplit(xs[0], sep, rest, part);
        if Contains(rest, part) {
          var k :| 0 <= k < |xs[1..]| && Contains(xs[1..][k], part);
          assert Contains(xs[k + 1], part);
        }
      }
      if exists i :: 0 <= i < |xs| && Contains(xs[i], part) {
        var i :| 0 <= i < |xs| && Contains(xs[i], part);
        if i == 0 {
          ContainsLeft(xs[0], [sep] + rest, part);
          assert xs[0] + ([sep] + rest) == Join(xs, sep);
        } else {
          assert Contains(xs[1..][i - 1], part);
          ContainsRight(xs[0] + [sep], rest, part);
        }
      }
    }
  }

  // ------------------------------------------------------------ digits

  predicate IsDigit(c: char) { '0' <= c <= '9' }

  /** `s.isdigit()`: non-empty and made of ASCII digits only. */
  predicate IsDigitString(s: string) {
    |s| > 0 && forall i :: 0 <= i < |s| ==> IsDigit(s[i])
  }

  /** `int(s)` for a string of digits. */
  function DigitsValue(s: string): (n: nat)
    requires forall i :: 0 <= i < |s| ==> IsDigit(s[i])
  {
    if s == [] then 0
    else
      assert IsDigit(s[|s| - 1]);
      10 * DigitsValue(s[..|s| - 1]) + (s[|s| - 1] as int - '0' as int)
  }

  function DigitChar(d: nat): (c: char)
    requires d < 10
    ensures IsDigit(c)
  {
    ('0' as int + d) as char
  }

  /** `str(n)` for a natural number. */
  function NatToString(n: nat): (s: string)
    ensures |s| >= 1 && IsDigit(s[0])
    ensures n < 10 <==> |s| == 1
  {
    if n < 10 then [DigitChar(n)] else NatToString(n / 10) + [DigitChar(n % 10)]
  }

  /** `str(i)` for any integer. */
  function IntToString(i: int): (s: string)
    ensures |s| >= 1 && (s[0] == '-' <==> i < 0)
  {
    if i < 0 then "-" + NatToString(-i) else NatToString(i)
  }

  /** The decimal rendering is made of digits, and reading it back gives the number. */
  lemma {:induction false} NatToStringRoundTrip(n: nat)
    ensures var s := NatToString(n); (forall i :: 0 <= i < |s| ==> IsDigit(s[i])) && DigitsValue(s) == n
  {
    var s := NatToString(n);
    if n >= 10 {
      NatToStringRoundTrip(n / 10);
      assert s[..|s| - 1] == NatToString(n / 10);
      assert forall i :: 0 <= i < |s| - 1 ==> s[i] == NatToString(n / 10)[i];
    }
  }

  /** Distinct numbers have distinct decimal renderings. */
  lemma NatToStringInjective(a: nat, b: nat)
    requires NatToString(a) == NatToString(b)
    ensures a == b
  {
    NatToStringRoundTrip(a);
    NatToStringRoundTrip(b);
  }

  /** Distinct codes have distinct `str(code)` keys. */
  lemma IntToStringInjective(a: int, b: int)
    requires IntToString(a) == IntToString(b)
    ensures a == b
  {
    var sa, sb := IntToString(a), IntToString(b);
    if a < 0 && b < 0 {
      assert sa[1..] == NatToString(-a) && sb[1..] == NatToString(-b);
      NatToStringInjective(-a, -b);
    } else if a >= 0 && b >= 0 {
      NatToStringInjective(a, b);
    }
  }

  // --------------------------------------------------------- whitespace

  predicate IsSpace(c: char) {
    c == ' ' || c == '\t' || c == '\n' || c == '\r' || c == 11 as char || c == 12 as char
  }

  function TrimLeft(s: string): (r: string)
    ensures |r| <= |s|
    ensures r == s[|s| - |r|..]
    ensures r != [] ==> !IsSpace(r[0])
  {
    if s != [] && IsSpace(s[0]) then TrimLeft(s[1..]) else s
  }

  function TrimRight(s: string): (r: string)
    ensures |r| <= |s|
    ensures r == s[..|r|]
    ensures r != [] ==> !IsSpace(r[|r| - 1])
  {
    if s != [] && IsSpace(s[|s| - 1]) then TrimRight(s[..|s| - 1]) else s
  }

  /** `s.strip()`. */
  function Strip(s: string): string {
    TrimRight(TrimLeft(s))
  }

  /** The stripped text is a contiguous piece of the original that neither
      starts nor ends with whitespace. */
  lemma StripShape(s: string)
    ensures |Strip(s)| <= |s| && Contains(s, Strip(s))
    ensures Strip(s) != [] ==> !IsSpace(Strip(s)[0]) && !IsSpace(Strip(s)[|Strip(s)| - 1])
  {
    var l := TrimLeft(s);
    assert OccursAt(s, Strip(s), |s| - |l|);
  }

  /** A text that neither starts nor ends with whitespace is its own strip. */
  lemma StripUnpadded(s: string)
    requires s != [] && !IsSpace(s[0]) && !IsSpace(s[|s| - 1])
    ensures Strip(s) == s
  {
  }

  /** `int(s)`: optional surrounding whitespace, an optional sign and decimal
      digits; `None` where Python raises ValueError. */
  function ParseInt(s: string): Option<int> {
    ParseSigned(Strip(s))
  }

  /** `int` on a text without surrounding whitespace. */
  function ParseSigned(t: string): Option<int> {
    if IsDigitString(t) then Some(DigitsValue(t))
    else if |t| >= 2 && (t[0] == '-' || t[0] == '+') && IsDigitString(t[1..]) then
      var v: int := DigitsValue(t[1..]);
      Some(if t[0] == '-' then -v else v)
    else None
  }

  /** A digit string has no surrounding whitespace to strip. */
  lemma DigitStringUnpadded(s: string)
    requires IsDigitString(s)
    ensures Strip(s) == s
  {
    assert IsDigit(s[0]) && IsDigit(s[|s| - 1]);
    StripUnpadded(s);
  }

  /** Digits with surrounding whitespace read as their value. */
  lemma ParseDigits(s: string)
    requires IsDigitString(Strip(s))
    ensures ParseInt(s) == Some(DigitsValue(Strip(s)))
  {
  }

  lemma ParseNatRendering(n: nat)
    ensures ParseInt(NatToString(n)) == Some(n)
  {
    var d := NatToString(n);
    NatToStringRoundTrip(n);
    assert IsDigit(d[0]) && IsDigit(d[|d| - 1]);
    StripUnpadded(d);
    ParseDigits(d);
  }

  /** A minus sign followed by digits reads as the negated value. */
  lemma ParseNegative(d: string)
    requires IsDigitString(d)
    ensures var v: int := DigitsValue(d); ParseSigned("-" + d) == Some(-v)
  {
    var t := "-" + d;
    assert t[1..] == d;
    assert !IsDigit(t[0]);
  }

  lemma ParseNegativeRendering(n: int)
    requires n < 0
    ensures ParseInt(IntToString(n)) == Some(n)
  {
    var d := NatToString(-n);
    var t := "-" + d;
    NatToStringRoundTrip(-n);
    assert IsDigit(t[|t| - 1]) by {
      assert t[|t| - 1] == d[|d| - 1];
    }
    StripUnpadded(t);
    ParseNegative(d);
  }

  /** `int(str(n)) == n`. */
  lemma ParseIntRoundTrip(n: int)
    ensures ParseInt(IntToString(n)) == Some(n)
  {
    if n >= 0 {
      ParseNatRendering(n);
    } else {
      ParseNegativeRendering(n);
    }
  }

  // ------------------------------------------------------------ ordering

  /** Python's `<` on strings: code-point lexicographic order. */
  predicate LexLess(a: string, b: string) {
    if |a| == 0 then |b| > 0
    else if |b| == 0 then false
    else if a[0] == b[0] then LexLess(a[1..], b[1..])
    else a[0] < b[0]
  }

  lemma {:induction false} LexIrreflexive(a: string)
    ensures !LexLess(a, a)
  {
    if |a| > 0 { LexIrreflexive(a[1..]); }
  }

  lemma {:induction false} LexTransitive(a: string, b: string, c: string)
    requires LexLess(a, b) && LexLess(b, c)
    ensures LexLess(a, c)
  {
    if |a| > 0 && |b| > 0 && |c| > 0 && a[0] == b[0] && b[0] == c[0] {
      LexTransitive(a[1..], b[1..], c[1..]);
    }
  }

  lemma {:induction false} LexTotal(a: string, b: string)
    requires a != b
    ensures LexLess(a, b) || LexLess(b, a)
  {
    if |a| > 0 && |b| > 0 && a[0] == b[0] {
      assert a == [a[0]] + a[1..] && b == [b[0]] + b[1..];
      LexTotal(a[1..], b[1..]);
    }
  }

  /** What `sorted(...)` of a set of strings yields: strictly increasing,
      hence free of duplicates. */
  ghost predicate StrictlySorted(s: seq<string>) {
    forall i, j :: 0 <= i < j < |s| ==> LexLess(s[i], s[j])
  }

  /** A strictly sorted list has no duplicates. */
  lemma SortedDistinct(s: seq<string>)
    requires StrictlySorted(s)
    ensures forall i, j :: 0 <= i < j < |s| ==> s[i] != s[j]
  {
    forall i, j | 0 <= i < j < |s| ensures s[i] != s[j] {
      LexIrreflexive(s[i]);
    }
  }

  lemma SortedCons(x: string, s: seq<string>)
    requires StrictlySorted(s)
    requires forall y :: y in s ==> LexLess(x, y)
    ensures StrictlySorted([x] + s)
  {
    var r := [x] + s;
    forall i, j | 0 <= i < j < |r| ensures LexLess(r[i], r[j]) {
      if i > 0 { assert r[i] == s[i - 1] && r[j] == s[j - 1]; }
      else { assert r[j] in s; }
    }
  }

  lemma SmallestFirst(x: string, s: seq<string>)
    requires StrictlySorted(s) && s != [] && LexLess(x, s[0])
    ensures forall y :: y in s ==> LexLess(x, y)
  {
    forall y | y in s ensures LexLess(x, y) {
      if y != s[0] {
        var j :| 0 <= j < |s| && s[j] == y;
        LexTransitive(x, s[0], y);
      }
    }
  }

  /** Adds one name to a sorted, duplicate-free list, as `set.add` followed by
      `sorted` would. */
  function Insert(s: seq<string>, x: string): (r: seq<string>)
    requires StrictlySorted(s)
    ensures StrictlySorted(r)
    ensures forall y :: y in r <==> y in s || y == x
  {
    if s == [] then [x]
    else if s[0] == x then s
    else if LexLess(x, s[0]) then
      SmallestFirst(x, s);
      SortedCons(x, s);
      [x] + s
    else
      var tail := Insert(s[1..], x);
      LexTotal(x, s[0]);
      assert forall y :: y in s[1..] ==> LexLess(s[0], y);
      SortedCons(s[0], tail);
      [s[0]] + tail
  }

  /** `sorted(set(xs))`. */
  function SortedSet(xs: seq<string>): (r: seq<string>)
    ensures StrictlySorted(r)
    ensures forall y :: y in r <==> y in xs
  {
    if xs == [] then [] else Insert(SortedSet(xs[..|xs| - 1]), xs[|xs| - 1])
  }
}
