/** Character-level helpers shared by the regular expressions of the core: decimal digit runs
    (`\d+`, `[0-9]+`), literal text at a position, and JavaScript's `Number()` of a digit string. */
module Text {

  predicate IsDigit(c: char) {
    '0' <= c <= '9'
  }

  /** Every character of s[a..j] is a decimal digit. */
  predicate AllDigits(s: string, a: nat, j: nat)
    requires a <= j <= |s|
  {
    forall k :: a <= k < j ==> IsDigit(s[k])
  }

  /** The end of the longest run of digits that starts at i: where a greedy `\d+` stops. */
  function DigitRunEnd(s: string, i: nat): (j: nat)
    requires i <= |s|
    ensures i <= j <= |s|
    ensures AllDigits(s, i, j)
    ensures j == |s| || !IsDigit(s[j])
    decreases |s| - i
  {
    if i < |s| && IsDigit(s[i]) then DigitRunEnd(s, i + 1) else i
  }

  /** The literal text p occurs in s at position i. */
  predicate HasAt(s: string, i: nat, p: string) {
    i + |p| <= |s| && s[i..i + |p|] == p
  }

  /** `Number(digits)` for a string of decimal digits (leading zeros allowed, as in Number("007")). */
  function DecimalValue(digits: string): nat
    requires forall k :: 0 <= k < |digits| ==> IsDigit(digits[k])
  {
    if |digits| == 0 then 0
    else
      var last := digits[|digits| - 1];
      assert IsDigit(last);
      10 * DecimalValue(digits[..|digits| - 1]) + (last as int - '0' as int)
  }
}
