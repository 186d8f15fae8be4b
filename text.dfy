/** String helpers standing in for the JavaScript built-ins the application
    calls: `toLowerCase` (ASCII letters only), `includes`, the decimal
    rendering of a number inside a template string, and `Number(s)` for the
    plain digit strings a numeric input field produces. */
module Text {

  function LowerChar(c: char): char
  {
    if 'A' <= c <= 'Z' then (c as int + 32) as char else c
  }

  /** `s.toLowerCase()`, restricted to ASCII letters. */
  function Lower(s: string): (r: string)
    ensures |r| == |s|
    ensures forall i :: 0 <= i < |s| ==> r[i] == LowerChar(s[i])
  {
    seq(|s|, i requires 0 <= i < |s| => LowerChar(s[i]))
  }

  predicate IsPrefix(p: string, s: string)
  {
    |p| <= |s| && s[..|p|] == p
  }

  /** `hay.includes(needle)`: `needle` occurs at some position of `hay`. */
  predicate Contains(hay: string, needle: string)
    decreases |hay|
  {
    IsPrefix(needle, hay) || (hay != [] && Contains(hay[1..], needle))
  }

  /** Every string contains the empty string (`s.includes('')` is true). */
  lemma ContainsEmpty(hay: string)
    ensures Contains(hay, "")
  {
  }

  /** An occurrence at position `i` is found by `Contains`. */
  lemma {:induction false} ContainsAt(hay: string, needle: string, i: nat)
    requires i + |needle| <= |hay| && hay[i..i + |needle|] == needle
    ensures Contains(hay, needle)
    decreases i
  {
    if i > 0 {
      assert hay[1..][i - 1..i - 1 + |needle|] == hay[i..i + |needle|];
      ContainsAt(hay[1..], needle, i - 1);
    }
  }

  function DigitChar(d: nat): char
    requires d < 10
  {
    ('0' as int + d) as char
  }

  predicate IsDigit(c: char)
  {
    '0' <= c <= '9'
  }

  /** The decimal rendering of `n`, as a template string writes a number. */
  function DecimalString(n: nat): (r: string)
    ensures |r| >= 1
    ensures forall i :: 0 <= i < |r| ==> IsDigit(r[i])
  {
    if n < 10 then [DigitChar(n)] else DecimalString(n / 10) + [DigitChar(n % 10)]
  }

  function DigitsValue(s: string): nat
    requires forall i :: 0 <= i < |s| ==> IsDigit(s[i])
  {
    if s == [] then 0
    else
      var last := s[|s| - 1];
      assert IsDigit(last);
      10 * DigitsValue(s[..|s| - 1]) + (last as int - '0' as int)
  }

  predicate AllDigits(s: string)
  {
    forall i :: 0 <= i < |s| ==> IsDigit(s[i])
  }

  /** `Number(s)` for the value of a numeric input field: digits with an
      optional leading '-' or '+' are read as that integer, and the empty
      string as 0. `Number` gives NaN for any other text without a point or
      an exponent; that NaN is read as 0 here. */
  function NumberOf(s: string): int
  {
    if AllDigits(s) then DigitsValue(s)
    else if |s| > 1 && s[0] == '-' && AllDigits(s[1..]) then -(DigitsValue(s[1..]) as int)
    else if |s| > 1 && s[0] == '+' && AllDigits(s[1..]) then DigitsValue(s[1..])
    else 0
  }

  /** A leading '-' negates the digits' value, and a leading '+' keeps it. */
  lemma NumberOfSigned(s: string)
    requires |s| > 0 && AllDigits(s)
    ensures NumberOf("-" + s) == -NumberOf(s)
    ensures NumberOf("+" + s) == NumberOf(s)
  {
    assert ("-" + s)[1..] == s && !IsDigit(("-" + s)[0]);
    assert ("+" + s)[1..] == s && !IsDigit(("+" + s)[0]);
  }

  /** Reading back the decimal rendering of a number gives the number. */
  lemma {:induction false} NumberOfDecimalString(n: nat)
    ensures NumberOf(DecimalString(n)) == n
  {
    var s := DecimalString(n);
    if n < 10 {
      assert s[..|s| - 1] == [];
    } else {
      NumberOfDecimalString(n / 10);
      assert s[..|s| - 1] == DecimalString(n / 10);
      assert s[|s| - 1] == DigitChar(n % 10);
    }
    assert DigitsValue(s) == n;
  }

  /** Distinct numbers have distinct decimal renderings. */
  lemma DecimalStringInjective(m: nat, n: nat)
    requires m != n
    ensures DecimalString(m) != DecimalString(n)
  {
    NumberOfDecimalString(m);
    NumberOfDecimalString(n);
  }
}
