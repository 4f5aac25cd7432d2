/**
 * String helpers the store and the routes rely on: the case-insensitive
 * substring test behind Kotlin's `contains(…, ignoreCase = true)` and the
 * decimal rendering of an integer inside a string template.
 */
module Text {

  /** Lower-cases an ASCII letter and leaves every other character alone. */
  function LowerChar(c: char): char
  {
    if 'A' <= c <= 'Z' then (c as int + 32) as char else c
  }

  /** Two characters are equal ignoring case (ASCII folding only). */
  predicate CharEqualsIgnoreCase(a: char, b: char)
  {
    LowerChar(a) == LowerChar(b)
  }

  /** `sub` matches `text` at `offset`, ignoring case. */
  predicate RegionMatchesIgnoreCase(text: string, offset: nat, sub: string)
    requires offset + |sub| <= |text|
  {
    forall j :: 0 <= j < |sub| ==> CharEqualsIgnoreCase(text[offset + j], sub[j])
  }

  /** Some offset at or after `from` where `sub` occurs in `text`, ignoring case. */
  ghost predicate OccursIgnoreCaseFrom(text: string, sub: string, from: nat)
  {
    exists i :: from <= i && i + |sub| <= |text| && RegionMatchesIgnoreCase(text, i, sub)
  }

  /** The scan behind `indexOf(sub, from, ignoreCase = true) >= 0`. */
  function ContainsIgnoreCaseFrom(text: string, sub: string, from: nat): (b: bool)
    ensures b <==> OccursIgnoreCaseFrom(text, sub, from)
    decreases |text| - from
  {
    if from + |sub| > |text| then
      false
    else if RegionMatchesIgnoreCase(text, from, sub) then
      true
    else
      var b := ContainsIgnoreCaseFrom(text, sub, from + 1);
      assert OccursIgnoreCaseFrom(text, sub, from) ==> OccursIgnoreCaseFrom(text, sub, from + 1) by {
        if OccursIgnoreCaseFrom(text, sub, from) {
          var i :| from <= i && i + |sub| <= |text| && RegionMatchesIgnoreCase(text, i, sub);
          assert i != from;
        }
      }
      b
  }

  /**
   * `text.contains(sub, ignoreCase = true)`: true exactly when `sub` occurs
   * somewhere in `text` with every character equal up to case. The empty
   * string occurs in every string.
   */
  function ContainsIgnoreCase(text: string, sub: string): (b: bool)
    ensures b <==> exists i :: 0 <= i && i + |sub| <= |text| && RegionMatchesIgnoreCase(text, i, sub)
    ensures sub == [] ==> b
  {
    assert sub == [] ==> RegionMatchesIgnoreCase(text, 0, sub);
    ContainsIgnoreCaseFrom(text, sub, 0)
  }

  predicate IsDigit(c: char)
  {
    '0' <= c <= '9'
  }

  predicate AllDigits(s: string)
  {
    forall i :: 0 <= i < |s| ==> IsDigit(s[i])
  }

  function DigitChar(d: nat): char
    requires d < 10
  {
    "0123456789"[d]
  }

  /**
   * The decimal text of a non-negative integer, as a Kotlin string template
   * writes `${n}`: at least one digit, only digits, no leading zero.
   */
  function NatToString(n: nat): (s: string)
    ensures |s| >= 1 && AllDigits(s)
    ensures |s| > 1 ==> s[0] != '0'
    decreases n
  {
    if n < 10 then [DigitChar(n)] else NatToString(n / 10) + [DigitChar(n % 10)]
  }

  /** The value of a string of decimal digits, read most significant first. */
  function DigitsValue(s: string): nat
    requires AllDigits(s)
  {
    if s == [] then 0 else DigitsValue(s[..|s| - 1]) * 10 + (s[|s| - 1] as int - '0' as int)
  }

  /** Reading the decimal text back gives the number: the rendering loses nothing. */
  lemma {:induction false} NatToStringRoundTrip(n: nat)
    ensures DigitsValue(NatToString(n)) == n
    decreases n
  {
    var s := NatToString(n);
    if n >= 10 {
      NatToStringRoundTrip(n / 10);
      assert s[..|s| - 1] == NatToString(n / 10);
    }
  }
}
