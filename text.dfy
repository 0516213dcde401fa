/** String helpers: decimal rendering and parsing, prefixes and suffixes,
    concatenation and character counting. */
module Text {
  import opened Wrappers

  predicate IsDigit(c: char) {
    '0' <= c <= '9'
  }

  predicate AllDigits(s: string) {
    forall i :: 0 <= i < |s| ==> IsDigit(s[i])
  }

  function DigitChar(d: nat): (c: char)
    requires d < 10
    ensures IsDigit(c)
  {
    (('0' as int) + d) as char
  }

  function DigitValue(c: char): (d: nat)
    requires IsDigit(c)
    ensures d < 10
  {
    (c as int) - ('0' as int)
  }

  /** Decimal text of a natural number, as Python's str() writes it. */
  function NatStr(n: nat): (s: string)
    ensures |s| >= 1 && AllDigits(s)
  {
    if n < 10 then [DigitChar(n)] else NatStr(n / 10) + [DigitChar(n % 10)]
  }

  /** Decimal text of an integer, with a leading '-' when negative. */
  function IntStr(i: int): (s: string)
    ensures |s| >= 1
    ensures i < 0 <==> s[0] == '-'
  {
    if i < 0 then "-" + NatStr(-i) else NatStr(i)
  }

  /** Value of a string of decimal digits. */
  function DigitsValue(s: string): nat
    requires AllDigits(s)
  {
    if s == [] then 0 else DigitsValue(s[..|s| - 1]) * 10 + DigitValue(s[|s| - 1])
  }

  /** Python's int() on a gate-number suffix, restricted to an optional sign
      followed by one or more ASCII digits. */
  function ParseInt(s: string): (r: Option<int>)
    ensures r.Some? ==> |s| >= 1
    ensures AllDigits(s) && s != [] ==> r == Some(DigitsValue(s))
  {
    if |s| >= 2 && s[0] == '-' && AllDigits(s[1..]) then Some(-(DigitsValue(s[1..]) as int))
    else if |s| >= 2 && s[0] == '+' && AllDigits(s[1..]) then Some(DigitsValue(s[1..]))
    else if |s| >= 1 && AllDigits(s) then Some(DigitsValue(s))
    else None
  }

  lemma {:induction false} DigitsValueOfNatStr(n: nat)
    ensures DigitsValue(NatStr(n)) == n
  {
    if n >= 10 {
      var s := NatStr(n);
      assert s == NatStr(n / 10) + [DigitChar(n % 10)];
      assert s[..|s| - 1] == NatStr(n / 10);
      DigitsValueOfNatStr(n / 10);
    }
  }

  /** Parsing the decimal text of a number gives the number back. */
  lemma ParseNatStr(n: nat)
    ensures ParseInt(NatStr(n)) == Some(n)
  {
    DigitsValueOfNatStr(n);
  }

  lemma ParseIntStr(i: int)
    ensures ParseInt(IntStr(i)) == Some(i)
  {
    if i < 0 {
      DigitsValueOfNatStr(-i);
      assert IntStr(i)[1..] == NatStr(-i);
    } else {
      DigitsValueOfNatStr(i);
    }
  }

  /** Different numbers have different decimal texts. */
  lemma NatStrInjective(a: nat, b: nat)
    requires NatStr(a) == NatStr(b)
    ensures a == b
  {
    DigitsValueOfNatStr(a);
    DigitsValueOfNatStr(b);
  }

  const LowerCase := "abcdefghijklmnopqrstuvwxyz"
  const UpperCase := "ABCDEFGHIJKLMNOPQRSTUVWXYZ"

  /** ASCII upper-casing (Python's str.upper restricted to ASCII letters):
      a lower-case letter becomes the capital 32 code points below it. */
  function UpperChar(c: char): (u: char)
    ensures 'a' <= c <= 'z' ==> 'A' <= u <= 'Z' && u as int == c as int - 32
    ensures !('a' <= c <= 'z') ==> u == c
  {
    if 'a' <= c <= 'z' then (c as int - 32) as char else c
  }

  function Upper(s: string): (u: string)
    ensures |u| == |s|
    ensures forall i :: 0 <= i < |s| ==> u[i] == UpperChar(s[i])
  {
    seq(|s|, i requires 0 <= i < |s| => UpperChar(s[i]))
  }

  /** Each lower-case letter becomes its own capital, position by position
      in the alphabet. */
  lemma UpperAlphabet()
    ensures Upper(LowerCase) == UpperCase
  {
  }

  /** Upper-casing twice changes nothing more. */
  lemma UpperIdempotent(s: string)
    ensures Upper(Upper(s)) == Upper(s)
  {
  }

  predicate StartsWith(s: string, p: string) {
    |p| <= |s| && s[..|p|] == p
  }

  predicate EndsWith(s: string, p: string) {
    |p| <= |s| && s[|s| - |p|..] == p
  }

  /** Concatenation of a list of strings, in order ("".join). */
  function Concat(ss: seq<string>): string {
    if ss == [] then "" else Concat(ss[..|ss| - 1]) + ss[|ss| - 1]
  }

  lemma {:induction false} ConcatAppend(a: seq<string>, b: seq<string>)
    ensures Concat(a + b) == Concat(a) + Concat(b)
  {
    if b == [] {
      assert a + b == a;
    } else {
      assert (a + b)[..|a + b| - 1] == a + b[..|b| - 1];
      ConcatAppend(a, b[..|b| - 1]);
    }
  }

  /** Number of occurrences of c in s. */
  function Count(c: char, s: string): nat {
    if s == [] then 0 else Count(c, s[..|s| - 1]) + (if s[|s| - 1] == c then 1 else 0)
  }

  lemma {:induction false} CountAppend(c: char, a: string, b: string)
    ensures Count(c, a + b) == Count(c, a) + Count(c, b)
  {
    if b != [] {
      assert (a + b)[..|a + b| - 1] == a + b[..|b| - 1];
      CountAppend(c, a, b[..|b| - 1]);
    } else {
      assert a + b == a;
    }
  }

  lemma {:induction false} CountAbsent(c: char, s: string)
    requires forall i :: 0 <= i < |s| ==> s[i] != c
    ensures Count(c, s) == 0
  {
    if s != [] {
      CountAbsent(c, s[..|s| - 1]);
    }
  }

  /** Appending the same suffix to two strings keeps them apart. */
  lemma SuffixInjective(a: string, b: string, suffix: string)
    requires a + suffix == b + suffix
    ensures a == b
  {
    assert |a| == |b|;
    assert a == (a + suffix)[..|a|];
    assert b == (b + suffix)[..|b|];
  }
}
