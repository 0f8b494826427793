/** String helpers shared by the model: substring search and decimal rendering of naturals. */
module Strings {

  /** t occurs in s starting at position i. */
  predicate OccursAt(s: string, t: string, i: nat)
  {
    i + |t| <= |s| && s[i..i + |t|] == t
  }

  /** `s.includes(t)`: t occurs somewhere in s as a contiguous block. */
  predicate Contains(s: string, t: string)
  {
    exists i | 0 <= i <= |s| - |t| :: OccursAt(s, t, i)
  }

  /** Every character of a string that contains t occurs in it; used to refute containment. */
  lemma ContainsHasChar(s: string, t: string, k: nat)
    requires Contains(s, t)
    requires k < |t|
    ensures t[k] in s
  {
    var i :| 0 <= i <= |s| - |t| && OccursAt(s, t, i);
    assert s[i + k] == s[i..i + |t|][k];
  }

  /** A witness position makes a string contain t. */
  lemma ContainsAt(s: string, t: string, i: nat)
    requires OccursAt(s, t, i)
    ensures Contains(s, t)
  {
  }

  predicate IsDigit(c: char)
  {
    '0' <= c <= '9'
  }

  function DigitChar(d: nat): (c: char)
    requires d < 10
    ensures IsDigit(c)
  {
    ('0' as int + d) as char
  }

  /** The value of one decimal digit. */
  function DigitValue(c: char): int
  {
    c as int - '0' as int
  }

  /** The decimal text JavaScript produces for a non-negative integer (`${n}`). */
  function DecimalDigits(n: nat): string
  {
    if n < 10 then [DigitChar(n)] else DecimalDigits(n / 10) + [DigitChar(n % 10)]
  }

  /** The number a string of decimal digits denotes, most significant digit first. */
  function DecimalValue(s: string): int
  {
    if s == [] then 0 else DecimalValue(s[..|s| - 1]) * 10 + DigitValue(s[|s| - 1])
  }

  /** The decimal text is one or more digits, a single one exactly below 10. */
  lemma {:induction false} DecimalDigitsShape(n: nat)
    ensures |DecimalDigits(n)| >= 1
    ensures forall k :: 0 <= k < |DecimalDigits(n)| ==> IsDigit(DecimalDigits(n)[k])
    ensures n < 10 <==> |DecimalDigits(n)| == 1
  {
    if n >= 10 {
      DecimalDigitsShape(n / 10);
    }
  }

  /** Reading the decimal text back gives the number. */
  lemma {:induction false} DecimalDigitsRoundTrip(n: nat)
    ensures DecimalValue(DecimalDigits(n)) == n
  {
    var s := DecimalDigits(n);
    if n < 10 {
      assert s[..0] == [];
    } else {
      DecimalDigitsRoundTrip(n / 10);
      assert s[..|s| - 1] == DecimalDigits(n / 10);
    }
  }

  /** Different numbers have different decimal texts. */
  lemma DecimalDigitsInjective(m: nat, n: nat)
    requires DecimalDigits(m) == DecimalDigits(n)
    ensures m == n
  {
    DecimalDigitsRoundTrip(m);
    DecimalDigitsRoundTrip(n);
  }
}
