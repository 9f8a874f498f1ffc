/** Python's `str` on integers: the shortest decimal numeral, with a leading
    minus sign for negative values, and the parser that undoes it. Python's
    default limit on the number of digits `str` converts is not modelled. */
module Decimal {

  predicate IsDigit(c: char) {
    '0' <= c <= '9'
  }

  predicate IsDigits(s: string) {
    forall i :: 0 <= i < |s| ==> IsDigit(s[i])
  }

  /** A numeral as `str` prints one: optional '-', then digits without a leading zero. */
  predicate IsCanonical(s: string) {
    var digits := if |s| > 0 && s[0] == '-' then s[1..] else s;
    && |digits| >= 1
    && IsDigits(digits)
    && (digits[0] == '0' ==> |digits| == 1 && s == digits)
  }

  function DigitChar(d: nat): (c: char)
    requires d < 10
    ensures IsDigit(c) && c as int - '0' as int == d
  {
    ('0' as int + d) as char
  }

  /** Value of one digit character (meaningful for '0' to '9' only). */
  function DigitValue(c: char): int {
    c as int - '0' as int
  }

  /** Decimal numeral of `n`, most significant digit first. */
  function NatToString(n: nat): (s: string)
    ensures |s| >= 1 && IsDigit(s[0])
    decreases n
  {
    if n < 10 then [DigitChar(n)] else NatToString(n / 10) + [DigitChar(n % 10)]
  }

  /** Python's `str(x)` for an `int` x, of any size. Python 3.11 and later (and
      some security releases of 3.7 to 3.10) by default raise ValueError
      instead when the numeral would have more than 4300 digits; this function
      has no such limit. */
  function IntToString(x: int): (s: string)
    ensures |s| >= 1
    ensures s[0] == '-' <==> x < 0
  {
    if x < 0 then "-" + NatToString(-x) else NatToString(x)
  }

  /** Value of a string of digits, read most significant digit first. */
  function ParseNat(s: string): int
    decreases |s|
  {
    if s == [] then 0 else 10 * ParseNat(s[..|s| - 1]) + DigitValue(s[|s| - 1])
  }

  /** Python's `int(s)` on the numerals `str` produces. */
  function ParseInt(s: string): int {
    if |s| > 0 && s[0] == '-' then -ParseNat(s[1..]) else ParseNat(s)
  }

  /** `str` of a natural number is digits only, with no leading zero unless it is "0". */
  lemma {:induction false} NatToStringDigits(n: nat)
    ensures IsDigits(NatToString(n))
    ensures NatToString(n)[0] == '0' ==> n == 0
    decreases n
  {
    if n >= 10 {
      NatToStringDigits(n / 10);
    }
  }

  /** Every numeral `str` prints is canonical. */
  lemma IntToStringCanonical(x: int)
    ensures IsCanonical(IntToString(x))
  {
    if x < 0 {
      NatToStringDigits(-x);
      assert IntToString(x)[1..] == NatToString(-x);
    } else {
      NatToStringDigits(x);
    }
  }

  lemma {:induction false} ParseNatOfNatToString(n: nat)
    ensures ParseNat(NatToString(n)) == n
    decreases n
  {
    if n >= 10 {
      var s := NatToString(n);
      assert s[..|s| - 1] == NatToString(n / 10);
      ParseNatOfNatToString(n / 10);
    }
  }

  /** `int(str(x)) == x`: the numeral `str` prints denotes the integer. */
  lemma ParseIntOfIntToString(x: int)
    ensures ParseInt(IntToString(x)) == x
  {
    if x < 0 {
      var digits := NatToString(-x);
      var s := "-" + digits;
      assert IntToString(x) == s;
      assert s[0] == '-' && s[1..] == digits;
      ParseNatOfNatToString(-x);
    } else {
      ParseNatOfNatToString(x);
    }
  }

  /** A string of digits has a non-negative value, and a positive one when its
      first digit is not '0'. */
  lemma {:induction false} ParseNatBounds(d: string)
    requires IsDigits(d)
    ensures ParseNat(d) >= 0
    ensures |d| >= 1 && d[0] != '0' ==> ParseNat(d) >= 1
    decreases |d|
  {
    if d != [] {
      ParseNatBounds(d[..|d| - 1]);
    }
  }

  lemma {:induction false} NatToStringOfParseNat(d: string)
    requires |d| >= 1 && IsDigits(d)
    requires d[0] == '0' ==> |d| == 1
    ensures ParseNat(d) >= 0 && NatToString(ParseNat(d)) == d
    decreases |d|
  {
    ParseNatBounds(d);
    if |d| > 1 {
      var prefix := d[..|d| - 1];
      ParseNatBounds(prefix);
      NatToStringOfParseNat(prefix);
      var n := ParseNat(d);
      assert n / 10 == ParseNat(prefix) && n % 10 == DigitValue(d[|d| - 1]);
      assert d == prefix + [d[|d| - 1]];
    } else {
      assert d == [d[0]];
    }
  }

  /** `str(int(s)) == s` for every canonical numeral: together with
      `ParseIntOfIntToString`, `ParseInt` and `IntToString` are inverse
      bijections between integers and canonical numerals. */
  lemma IntToStringOfParseInt(s: string)
    requires IsCanonical(s)
    ensures IntToString(ParseInt(s)) == s
  {
    if s[0] == '-' {
      var digits := s[1..];
      NatToStringOfParseNat(digits);
      ParseNatBounds(digits);
      assert ParseNat(digits) >= 1;
      assert s == "-" + digits;
    } else {
      NatToStringOfParseNat(s);
    }
  }

  /** Distinct integers print as distinct numerals. */
  lemma IntToStringInjective(a: int, b: int)
    ensures IntToString(a) == IntToString(b) <==> a == b
  {
    ParseIntOfIntToString(a);
    ParseIntOfIntToString(b);
  }
}
