/** Decimal integers as Go's strconv formats and parses them. */
module Decimal {
  import opened Wrappers

  const MIN_INT64: int := -0x8000_0000_0000_0000
  const MAX_INT64: int := 0x7FFF_FFFF_FFFF_FFFF

  predicate IsDigit(c: char) { '0' <= c <= '9' }

  function DigitChar(d: nat): char
    requires d < 10
  {
    "0123456789"[d]
  }

  function DigitValue(c: char): nat
    requires IsDigit(c)
  {
    c as int - '0' as int
  }

  predicate AllDigits(s: string) { forall i :: 0 <= i < |s| ==> IsDigit(s[i]) }

  function Digits(n: nat): (s: string)
    ensures s != "" && AllDigits(s)
  {
    if n < 10 then [DigitChar(n)] else Digits(n / 10) + [DigitChar(n % 10)]
  }

  // FormatInt in base 10, and Itoa.
  function Format(n: int): string { if n < 0 then "-" + Digits(-n) else Digits(n) }

  function Value(s: string): nat
    requires AllDigits(s)
  {
    if s == "" then 0 else Value(s[..|s| - 1]) * 10 + DigitValue(s[|s| - 1])
  }

  // ParseInt in base 10 with 64 bits, and Atoi: an optional sign, at least one digit,
  // nothing else, and in range.
  function Parse(s: string): Option<int>
  {
    var signed := s != "" && (s[0] == '-' || s[0] == '+');
    var digits := if signed then s[1..] else s;
    if digits == "" || !AllDigits(digits) then None
    else
      var v: int := if signed && s[0] == '-' then 0 - Value(digits) else Value(digits);
      if MIN_INT64 <= v <= MAX_INT64 then Some(v) else None
  }

  lemma {:induction false} ValueOfDigits(n: nat)
    ensures Value(Digits(n)) == n
  {
    if n >= 10 {
      ValueOfDigits(n / 10);
      var s := Digits(n);
      assert s[..|s| - 1] == Digits(n / 10);
    } else {
      assert Digits(n)[..0] == "";
    }
  }

  lemma ParseDigits(n: nat)
    ensures Parse(Digits(n)) == if n <= MAX_INT64 then Some(n) else None
    ensures Parse("-" + Digits(n)) == if MIN_INT64 <= 0 - n then Some(0 - n) else None
  {
    var d := Digits(n);
    ValueOfDigits(n);
    assert IsDigit(d[0]) && ("-" + d)[0] == '-' && ("-" + d)[1..] == d;
  }

  // Parsing a formatted 64-bit integer gives it back.
  lemma ParseFormat(n: int)
    requires MIN_INT64 <= n <= MAX_INT64
    ensures Parse(Format(n)) == Some(n)
  {
    ParseDigits(if n < 0 then -n else n);
  }

  // Numbers read as usual: appending a digit multiplies by ten and adds it, a sign may
  // come first, and what is out of the 64-bit range does not parse.
  lemma ParseAppends(s: string, d: nat)
    requires s != "" && AllDigits(s) && d < 10
    ensures AllDigits(s + ["0123456789"[d]]) && Value(s + ["0123456789"[d]]) == 10 * Value(s) + d
    ensures forall c :: AllDigits([c]) ==> Value([c]) == c as int - '0' as int
  {
    var t := s + ["0123456789"[d]];
    assert t[..|t| - 1] == s;
    forall c | AllDigits([c]) ensures Value([c]) == c as int - '0' as int {
      assert [c][..0] == "" && IsDigit([c][0]);
    }
  }

  lemma ParseReadsValue(s: string)
    requires s != "" && AllDigits(s)
    ensures Parse(s) == if Value(s) <= 9223372036854775807 then Some(Value(s)) else None
    ensures Parse("+" + s) == Parse(s)
    ensures Parse("-" + s) == if Value(s) <= 9223372036854775808 then Some(0 - Value(s)) else None
  {
    assert IsDigit(s[0]) && ("-" + s)[1..] == s && ("+" + s)[1..] == s;
  }

  // Nothing but an optional sign and digits parses.
  lemma ParsesOnlyNumbers(s: string)
    requires Parse(s).Some?
    ensures s != ""
    ensures forall i :: 1 <= i < |s| ==> '0' <= s[i] <= '9'
    ensures '0' <= s[0] <= '9' || ((s[0] == '+' || s[0] == '-') && |s| > 1)
  {
    if s[0] == '-' || s[0] == '+' {
      forall i | 1 <= i < |s| ensures '0' <= s[i] <= '9' { assert IsDigit(s[1..][i - 1]); }
    } else {
      assert IsDigit(s[0]);
    }
  }

  // Printing is the usual notation: no leading zeros, the last digit is the remainder by
  // ten, and a minus sign before a negative number.
  lemma FormatIsDecimal(n: nat)
    ensures n < 10 ==> Format(n) == ["0123456789"[n]]
    ensures n >= 10 ==> Format(n) == Format(n / 10) + ["0123456789"[n % 10]]
    ensures n > 0 ==> Format(0 - n) == "-" + Format(n)
  {
  }

  // A formatted integer holds digits and at most a leading minus sign.
  lemma FormatChars(n: int)
    ensures Format(n) != "" && forall i :: 0 <= i < |Format(n)| ==> IsDigit(Format(n)[i]) || Format(n)[i] == '-'
  {
    var d := Digits(if n < 0 then -n else n);
    assert n < 0 ==> Format(n) == "-" + d;
  }

  lemma FormatInjective(a: int, b: int)
    requires Format(a) == Format(b)
    ensures a == b
  {
    ValueOfDigits(if a < 0 then -a else a);
    ValueOfDigits(if b < 0 then -b else b);
    assert a < 0 ==> Format(a)[0] == '-' && Format(a)[1..] == Digits(-a);
    assert b < 0 ==> Format(b)[0] == '-' && Format(b)[1..] == Digits(-b);
  }
}
