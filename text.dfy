/** Character-level helpers the adaptor needs: ASCII upper-casing (`uppercased()`),
    decimal rendering of integers (Swift string interpolation of an `Int`) and its inverse. */
module Text {

  function UpperChar(c: char): (u: char)
    ensures 'a' <= c <= 'z' ==> u as int == c as int - 32
    ensures !('a' <= c <= 'z') ==> u == c
  {
    if 'a' <= c <= 'z' then (c as int - 32) as char else c
  }

  /** ASCII upper-casing, character by character. */
  function Upper(s: string): (u: string)
    ensures |u| == |s|
    ensures forall i :: 0 <= i < |s| ==> u[i] == UpperChar(s[i])
  {
    if s == [] then [] else [UpperChar(s[0])] + Upper(s[1..])
  }

  /** A string without lower-case ASCII letters. */
  predicate IsUpper(s: string) {
    forall i :: 0 <= i < |s| ==> !('a' <= s[i] <= 'z')
  }

  /** Upper-casing leaves an upper-case string alone and always yields an upper-case string. */
  lemma UpperFixesUpper(s: string)
    ensures IsUpper(s) ==> Upper(s) == s
    ensures IsUpper(Upper(s))
  {
  }

  /** An upper-case prefix of a string is also a prefix of the string upper-cased. */
  lemma UpperKeepsUpperPrefix(p: string, s: string)
    requires IsUpper(p) && p <= s
    ensures p <= Upper(s)
  {
    assert forall i :: 0 <= i < |p| ==> Upper(s)[i] == UpperChar(s[i]) == s[i];
  }

  predicate IsDigit(c: char) {
    '0' <= c <= '9'
  }

  function DigitChar(d: nat): (c: char)
    requires d < 10
    ensures IsDigit(c)
  {
    (d + '0' as int) as char
  }

  /** Decimal digits of a natural number, most significant first, no leading zeros. */
  function NatDigits(n: nat): (s: string)
    ensures |s| > 0
    ensures forall i :: 0 <= i < |s| ==> IsDigit(s[i])
    ensures n > 0 ==> s[0] != '0'
    decreases n
  {
    if n < 10 then [DigitChar(n)] else NatDigits(n / 10) + [DigitChar(n % 10)]
  }

  /** `"\(n)"` for a Swift integer. */
  function Decimal(n: int): (s: string)
    ensures |s| > 0
    ensures n >= 0 <==> IsDigit(s[0])
  {
    if n >= 0 then NatDigits(n) else "-" + NatDigits(-n)
  }

  /** Value of a string of decimal digits. */
  function DigitsValue(s: string): (n: nat)
    requires forall i :: 0 <= i < |s| ==> IsDigit(s[i])
  {
    if s == [] then 0
    else
      assert IsDigit(s[|s| - 1]);
      DigitsValue(s[..|s| - 1]) * 10 + (s[|s| - 1] as int - '0' as int)
  }

  /** Reads back an optionally signed decimal number. */
  function ParseDecimal(s: string): (r: int)
    requires |s| > 0
    requires s[0] == '-' ==> |s| > 1
    requires forall i :: (if s[0] == '-' then 1 else 0) <= i < |s| ==> IsDigit(s[i])
  {
    if s[0] == '-' then -(DigitsValue(s[1..]) as int) else DigitsValue(s) as int
  }

  lemma {:induction false} NatDigitsValue(n: nat)
    ensures DigitsValue(NatDigits(n)) == n
    decreases n
  {
    if n >= 10 {
      var s := NatDigits(n / 10) + [DigitChar(n % 10)];
      assert s[..|s| - 1] == NatDigits(n / 10);
      NatDigitsValue(n / 10);
    }
  }

  /** Rendering a number in decimal and reading it back gives the number. */
  lemma DecimalRoundTrip(n: int)
    ensures var s := Decimal(n);
      && (s[0] == '-' ==> |s| > 1)
      && (forall i :: (if s[0] == '-' then 1 else 0) <= i < |s| ==> IsDigit(s[i]))
      && ParseDecimal(s) == n
  {
    if n >= 0 {
      NatDigitsValue(n);
    } else {
      var s := Decimal(n);
      assert s[1..] == NatDigits(-n);
      NatDigitsValue(-n);
    }
  }

  /** Distinct numbers render differently. */
  lemma DecimalInjective(m: int, n: int)
    ensures Decimal(m) == Decimal(n) <==> m == n
  {
    DecimalRoundTrip(m);
    DecimalRoundTrip(n);
  }

  /** A common prefix cancels. */
  lemma PrefixCancel(stem: string, x: string, y: string)
    ensures stem + x == stem + y <==> x == y
  {
    if stem + x == stem + y {
      assert x == (stem + x)[|stem|..];
      assert y == (stem + y)[|stem|..];
    }
  }
}
