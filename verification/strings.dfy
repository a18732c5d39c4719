/**
 * String helpers the source takes from Go's standard library: strconv.Itoa
 * (and fmt's %d), strings.ToUpper, strings.Contains and strings.TrimSuffix,
 * plus a count of one character, used to match `?` markers against values.
 */
module Strings {

  predicate IsDigit(c: char) { '0' <= c <= '9' }

  predicate AllDigits(s: string) { forall i :: 0 <= i < |s| ==> IsDigit(s[i]) }

  function DigitChar(d: nat): (c: char)
    requires d < 10
    ensures IsDigit(c) && DigitValue(c) == d
  {
    ('0' as int + d) as char
  }

  function DigitValue(c: char): (d: nat)
    requires IsDigit(c)
    ensures d < 10
  {
    c as int - '0' as int
  }

  /** Decimal digits of n, most significant first, with no leading zero. */
  function Decimal(n: nat): (s: string)
    ensures |s| > 0 && AllDigits(s)
    ensures s[0] == '0' ==> n == 0
  {
    if n < 10 then [DigitChar(n)] else Decimal(n / 10) + [DigitChar(n % 10)]
  }

  /** The number a string of digits denotes. */
  function DecimalValue(s: string): nat
    requires AllDigits(s)
  {
    if s == [] then 0 else DecimalValue(s[..|s| - 1]) * 10 + DigitValue(s[|s| - 1])
  }

  lemma {:induction false} DecimalRoundTrip(n: nat)
    ensures DecimalValue(Decimal(n)) == n
  {
    if n >= 10 {
      var s := Decimal(n);
      assert s[..|s| - 1] == Decimal(n / 10);
      DecimalRoundTrip(n / 10);
    }
  }

  /** strconv.Itoa: a minus sign before the digits of a negative number. */
  function Itoa(n: int): string
  {
    if n < 0 then "-" + Decimal(-n) else Decimal(n)
  }

  /** Length of the longest prefix of s made of digits. */
  function DigitRun(s: string): (k: nat)
    ensures k <= |s| && AllDigits(s[..k])
    ensures k < |s| ==> !IsDigit(s[k])
  {
    if s == [] || !IsDigit(s[0]) then 0
    else
      var k := 1 + DigitRun(s[1..]);
      assert s[..k] == [s[0]] + s[1..][..k - 1];
      k
  }

  lemma {:induction false} DigitRunOf(d: string, t: string)
    requires AllDigits(d)
    requires t == [] || !IsDigit(t[0])
    ensures DigitRun(d + t) == |d|
  {
    if d != [] {
      assert (d + t)[1..] == d[1..] + t;
      DigitRunOf(d[1..], t);
    } else {
      assert d + t == t;
    }
  }

  /** Number of occurrences of c in s. */
  function Count(c: char, s: string): nat
  {
    if s == [] then 0 else Count(c, s[..|s| - 1]) + (if s[|s| - 1] == c then 1 else 0)
  }

  lemma {:induction false} CountAppend(c: char, a: string, b: string)
    ensures Count(c, a + b) == Count(c, a) + Count(c, b)
  {
    if b == [] {
      assert a + b == a;
    } else {
      assert (a + b)[..|a + b| - 1] == a + b[..|b| - 1];
      CountAppend(c, a, b[..|b| - 1]);
    }
  }

  lemma {:induction false} CountAbsent(c: char, s: string)
    requires c !in s
    ensures Count(c, s) == 0
  {
    if s != [] {
      assert s[|s| - 1] in s;
      assert forall x :: x in s[..|s| - 1] ==> x in s;
      CountAbsent(c, s[..|s| - 1]);
    }
  }

  /**
   * unicode.ToUpper as far as an ASCII result goes: the ASCII small letters,
   * the dotless i (U+0131) and the long s (U+017F) map to ASCII capitals;
   * no other character has an ASCII upper case, and every other character
   * is kept here.
   */
  function UpperChar(c: char): (u: char)
    ensures ('A' <= u <= 'Z') <==> ('A' <= c <= 'Z' || 'a' <= c <= 'z' || c == '\U{0131}' || c == '\U{017F}')
    ensures 'a' <= c <= 'z' ==> u as int == c as int - 32
    ensures c == '\U{0131}' ==> u == 'I'
    ensures c == '\U{017F}' ==> u == 'S'
  {
    if 'a' <= c <= 'z' then (c as int - 32) as char
    else if c == '\U{0131}' then 'I'
    else if c == '\U{017F}' then 'S'
    else c
  }

  /** strings.ToUpper, one character at a time. */
  function ToUpper(s: string): (r: string)
    ensures |r| == |s|
    ensures forall i :: 0 <= i < |s| ==> r[i] == UpperChar(s[i])
  {
    if s == [] then [] else [UpperChar(s[0])] + ToUpper(s[1..])
  }

  predicate HasPrefix(s: string, prefix: string)
  {
    |prefix| <= |s| && s[..|prefix|] == prefix
  }

  /** strings.Contains: sub occurs in s at some position. */
  predicate Contains(s: string, sub: string)
  {
    HasPrefix(s, sub) || (s != [] && Contains(s[1..], sub))
  }

  predicate HasSuffix(s: string, suffix: string)
  {
    |suffix| <= |s| && s[|s| - |suffix|..] == suffix
  }

  /** strings.TrimSuffix: drops one trailing copy of suffix, if there is one. */
  function TrimSuffix(s: string, suffix: string): (r: string)
    ensures HasSuffix(s, suffix) ==> r + suffix == s
    ensures !HasSuffix(s, suffix) ==> r == s
  {
    if HasSuffix(s, suffix) then s[..|s| - |suffix|] else s
  }
}
