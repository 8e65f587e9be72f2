/**
 * String helpers shared by the option builders: the order Python's `sorted`
 * and JavaScript's comparisons use on strings, splitting at the first dot,
 * decimal numerals, ASCII case mapping and substring search.
 */
module Text {
  import opened Wrappers

  /** Lexicographic order on code points: the order of Python's `<=` on `str`. */
  predicate Le(a: string, b: string)
    decreases |a|
  {
    |a| == 0 || (|b| > 0 && (a[0] < b[0] || (a[0] == b[0] && Le(a[1..], b[1..]))))
  }

  predicate Lt(a: string, b: string) {
    Le(a, b) && a != b
  }

  lemma LeRefl(a: string)
    ensures Le(a, a)
  {
  }

  lemma {:induction false} LeTotal(a: string, b: string)
    ensures Le(a, b) || Le(b, a)
    decreases |a|
  {
    if |a| > 0 && |b| > 0 && a[0] == b[0] {
      LeTotal(a[1..], b[1..]);
    }
  }

  lemma {:induction false} LeTrans(a: string, b: string, c: string)
    requires Le(a, b) && Le(b, c)
    ensures Le(a, c)
    decreases |a|
  {
    if |a| > 0 && a[0] == b[0] && b[0] == c[0] {
      LeTrans(a[1..], b[1..], c[1..]);
    }
  }

  lemma {:induction false} LeAntisym(a: string, b: string)
    requires Le(a, b) && Le(b, a)
    ensures a == b
    decreases |a|
  {
    if |a| > 0 {
      LeAntisym(a[1..], b[1..]);
      assert a == [a[0]] + a[1..] && b == [b[0]] + b[1..];
    }
  }

  /** A common prefix does not change how two strings compare. */
  lemma {:induction false} LeCommonPrefix(p: string, x: string, y: string)
    ensures Le(p + x, p + y) <==> Le(x, y)
    decreases |p|
  {
    if |p| > 0 {
      assert (p + x)[0] == p[0] == (p + y)[0];
      assert (p + x)[1..] == p[1..] + x && (p + y)[1..] == p[1..] + y;
      assert Le(p + x, p + y) == Le(p[1..] + x, p[1..] + y);
      LeCommonPrefix(p[1..], x, y);
    } else {
      assert p + x == x && p + y == y;
    }
  }

  /** Position of the first '.', or |s| when there is none. */
  function FirstDot(s: string): (k: nat)
    ensures k <= |s|
    ensures forall j :: 0 <= j < k ==> s[j] != '.'
    ensures k < |s| ==> s[k] == '.'
  {
    if |s| == 0 then 0 else if s[0] == '.' then 0 else 1 + FirstDot(s[1..])
  }

  predicate HasDot(s: string) {
    '.' in s
  }

  /** `s.split(".")[0]`, which is also `s.split(".", 1)[0]`. */
  function BeforeFirstDot(s: string): (r: string)
    ensures '.' !in r
    ensures HasDot(s) <==> |r| < |s|
  {
    s[..FirstDot(s)]
  }

  /** `s.split(".", 1)[1]` for a string that contains a dot. */
  function AfterFirstDot(s: string): (r: string)
    requires HasDot(s)
    ensures s == BeforeFirstDot(s) + "." + r
  {
    var k := FirstDot(s);
    assert s == s[..k] + "." + s[k + 1..];
    s[k + 1..]
  }

  /** Splitting at the first dot finds the joint when the first part has no dot. */
  lemma BeforeFirstDotOfJoin(a: string, b: string)
    requires '.' !in a
    ensures BeforeFirstDot(a + "." + b) == a
  {
    var s := a + "." + b;
    var k := FirstDot(s);
    assert s[|a|] == '.';
    assert s[..|a|] == a;
  }

  /** Two dotted ids with the same text before the dot compare as their remainders do. */
  lemma SameDomainOrder(a: string, b: string)
    requires HasDot(a) && HasDot(b) && BeforeFirstDot(a) == BeforeFirstDot(b)
    ensures Le(a, b) <==> Le(AfterFirstDot(a), AfterFirstDot(b))
  {
    var p := BeforeFirstDot(a) + ".";
    assert a == p + AfterFirstDot(a) && b == p + AfterFirstDot(b);
    LeCommonPrefix(p, AfterFirstDot(a), AfterFirstDot(b));
  }

  predicate IsDigit(c: char) {
    '0' <= c <= '9'
  }

  function DigitChar(d: nat): (c: char)
    requires d < 10
    ensures IsDigit(c) && c as int - '0' as int == d
  {
    ('0' as int + d) as char
  }

  /** Decimal numeral of a natural number, as `str(n)` writes it. */
  function NatToString(n: nat): (s: string)
    ensures |s| >= 1
    ensures forall i :: 0 <= i < |s| ==> IsDigit(s[i])
  {
    if n < 10 then [DigitChar(n)] else NatToString(n / 10) + [DigitChar(n % 10)]
  }

  /** `str(i)` for any integer. */
  function IntToString(i: int): string {
    if i < 0 then "-" + NatToString(-i) else NatToString(i)
  }

  /** `int(s)` on a string of decimal digits; None where `int` would raise. */
  function ParseNat(s: string): Option<nat> {
    if |s| == 0 || !IsDigit(s[|s| - 1]) then None
    else if |s| == 1 then Some(s[0] as int - '0' as int)
    else match ParseNat(s[..|s| - 1])
      case None => None
      case Some(n) => Some(10 * n + (s[|s| - 1] as int - '0' as int))
  }

  lemma {:induction false} ParseNatToString(n: nat)
    ensures ParseNat(NatToString(n)) == Some(n)
  {
    if n >= 10 {
      var s := NatToString(n);
      assert s[..|s| - 1] == NatToString(n / 10);
      ParseNatToString(n / 10);
    }
  }

  function LowerChar(c: char): char {
    if 'A' <= c <= 'Z' then (c as int + 32) as char else c
  }

  function UpperChar(c: char): char {
    if 'a' <= c <= 'z' then (c as int - 32) as char else c
  }

  /** `str.lower()` / `String.toLowerCase()` restricted to ASCII letters. */
  function Lower(s: string): (r: string)
    ensures |r| == |s|
  {
    if s == [] then [] else [LowerChar(s[0])] + Lower(s[1..])
  }

  /** Lower-casing twice is lower-casing once: a lower-cased text has no capital left. */
  lemma {:induction false} LowerIdempotent(s: string)
    ensures Lower(Lower(s)) == Lower(s)
  {
    if s != [] {
      LowerIdempotent(s[1..]);
      assert Lower(s)[1..] == Lower(s[1..]);
    }
  }

  /** `str.upper()` restricted to ASCII letters. */
  function Upper(s: string): (r: string)
    ensures |r| == |s|
  {
    if s == [] then [] else [UpperChar(s[0])] + Upper(s[1..])
  }

  predicate IsPrefix(p: string, s: string) {
    |p| <= |s| && s[..|p|] == p
  }

  /** `s.includes(t)`: t occurs in s at some position. */
  predicate Contains(s: string, t: string)
    decreases |s|
  {
    IsPrefix(t, s) || (|s| > 0 && Contains(s[1..], t))
  }
}
