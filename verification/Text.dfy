/**
 String checks shared by the services: JavaScript `trim()` emptiness and the
 decimal microE amount patterns.
 */
module Text {

  /** The characters `String.prototype.trim` removes. */
  predicate IsJsSpace(c: char) {
    var n := c as int;
    || 0x9 <= n <= 0xD || n == 0x20 || n == 0xA0 || n == 0x1680 || 0x2000 <= n <= 0x200A
    || n == 0x2028 || n == 0x2029 || n == 0x202F || n == 0x205F || n == 0x3000 || n == 0xFEFF
  }

  /** `value.trim() === ''` */
  predicate Blank(s: string) {
    forall i :: 0 <= i < |s| ==> IsJsSpace(s[i])
  }

  predicate IsDigit(c: char) {
    '0' <= c <= '9'
  }

  predicate AllDigits(s: string) {
    forall i :: 0 <= i < |s| ==> IsDigit(s[i])
  }

  /** The pattern `^(0|[1-9]\d*)$`. */
  predicate IsNonNegativeDecimal(s: string) {
    |s| > 0 && AllDigits(s) && (s[0] == '0' ==> |s| == 1)
  }

  /** The pattern `^[1-9]\d*$`. */
  predicate IsPositiveDecimal(s: string) {
    IsNonNegativeDecimal(s) && s[0] != '0'
  }

  /** The pattern `^-?(0|[1-9]\d*)$`. */
  predicate IsSignedDecimal(s: string) {
    IsNonNegativeDecimal(s) || (|s| > 0 && s[0] == '-' && IsNonNegativeDecimal(s[1..]))
  }

  /** `BigInt(s)` for a string of digits. */
  function DecimalValue(s: string): nat
    requires AllDigits(s)
  {
    if s == "" then 0 else 10 * DecimalValue(s[..|s| - 1]) + (s[|s| - 1] as int - '0' as int)
  }

  /** A positive pattern and a positive value are the same thing for a canonical decimal. */
  lemma {:induction false} PositiveDecimalValue(s: string)
    requires IsNonNegativeDecimal(s)
    ensures IsPositiveDecimal(s) <==> DecimalValue(s) > 0
  {
    if |s| > 1 {
      assert s[..|s| - 1][0] == s[0];
      PositiveDecimalValue(s[..|s| - 1]);
    }
  }
}
