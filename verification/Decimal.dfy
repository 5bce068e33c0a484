/** Decimal text of integers, and reading it back. */
module Decimal {
  import opened Options

  predicate IsDigit(c: char) {
    '0' <= c <= '9'
  }

  function DigitChar(d: nat): (c: char)
    requires d < 10
    ensures IsDigit(c) && DigitValue(c) == d
  {
    (('0' as int) + d) as char
  }

  function DigitValue(c: char): (d: nat)
    requires IsDigit(c)
    ensures d < 10
  {
    (c as int) - ('0' as int)
  }

  predicate AllDigits(s: string) {
    forall i :: 0 <= i < |s| ==> IsDigit(s[i])
  }

  function NatText(n: nat): (s: string)
    ensures s != "" && AllDigits(s)
  {
    if n < 10 then [DigitChar(n)] else NatText(n / 10) + [DigitChar(n % 10)]
  }

  function IntText(n: int): string {
    if n < 0 then "-" + NatText(-n) else NatText(n)
  }

  function NatValue(s: string): nat
    requires AllDigits(s)
  {
    if s == "" then 0 else 10 * NatValue(s[..|s| - 1]) + DigitValue(s[|s| - 1])
  }

  lemma {:induction false} NatRoundTrip(n: nat)
    ensures NatValue(NatText(n)) == n
  {
    if n >= 10 {
      NatRoundTrip(n / 10);
      var s := NatText(n / 10);
      assert (s + [DigitChar(n % 10)])[..|s|] == s;
    } else {
      assert [DigitChar(n)][..0] == "";
    }
  }

  lemma NatTextInjective(a: nat, b: nat)
    requires NatText(a) == NatText(b)
    ensures a == b
  {
    NatRoundTrip(a);
    NatRoundTrip(b);
  }

  /** `strconv.Atoi`: an optional sign, then digits and nothing else (overflow is not modelled). */
  function Atoi(s: string): Option<int> {
    var digits := if s != "" && (s[0] == '-' || s[0] == '+') then s[1..] else s;
    if digits == "" || !AllDigits(digits) then None
    else if s[0] == '-' then Some(-(NatValue(digits) as int))
    else Some(NatValue(digits))
  }

  lemma AtoiOfText(n: int)
    ensures Atoi(IntText(n)) == Some(n)
  {
    if n < 0 {
      NatRoundTrip(-n);
      assert ("-" + NatText(-n))[1..] == NatText(-n);
    } else {
      NatRoundTrip(n);
      assert IsDigit(NatText(n)[0]);
    }
  }

  /** The longest prefix of digits. */
  function DigitPrefix(s: string): (p: string)
    ensures AllDigits(p) && p <= s
  {
    if s == "" || !IsDigit(s[0]) then "" else
      var p := DigitPrefix(s[1..]);
      assert s[..|p| + 1] == [s[0]] + p;
      [s[0]] + p
  }

  /**
  JavaScript `parseInt` of a trimmed text that does not start with 0x: a sign, then as many digits as there are;
  `None` is NaN.
  */
  function ParseInt(s: string): Option<int> {
    var signed := s != "" && (s[0] == '-' || s[0] == '+');
    var p := DigitPrefix(if signed then s[1..] else s);
    if p == "" then None
    else if s[0] == '-' then Some(-(NatValue(p) as int))
    else Some(NatValue(p))
  }

  lemma {:induction false} DigitPrefixOfDigits(s: string)
    requires AllDigits(s)
    ensures DigitPrefix(s) == s
  {
    if s != "" {
      DigitPrefixOfDigits(s[1..]);
    }
  }

  lemma ParseIntOfText(n: int)
    ensures ParseInt(IntText(n)) == Some(n)
  {
    var t := NatText(if n < 0 then -n else n);
    NatRoundTrip(if n < 0 then -n else n);
    DigitPrefixOfDigits(t);
    if n < 0 {
      assert IntText(n)[1..] == t;
    } else {
      assert IsDigit(t[0]);
    }
  }
}
